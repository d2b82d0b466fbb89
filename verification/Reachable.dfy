/** Orderly runs from the empty service to a row of each status, with its process alive. */
module Reachable {
  import opened Wrappers
  import opened Domain
  import opened Request
  import opened Protocol
  import opened Interleaved
  import opened Guarantees
  import opened Orderly
  import opened Serial

  /** The empty service, and a request it can create an indexer from under a fresh id. */
  predicate CanCreate(s: Sys, id: Uuid, r: CreateIndexerRequest) {
    Init(s) && Accepted(r) && ScriptKey(id) !in s.w.store
  }

  predicate TwoPids(s: Sys, pid: int, pid': int) {
    pid != pid' && FreshPid(s.w, Working(pid)) && FreshPid(s.w, Working(pid'))
  }

  /** No handler is in flight, and the row records a live process of its own. */
  predicate Settled(s: Sys, id: Uuid, status: IndexerStatus, pid: int) {
    && Ordered(s) && s.flights == map[]
    && id in s.w.table && s.w.table[id].status == status && s.w.table[id].processId == Some(pid)
    && Live(s.w, pid) && s.w.procs[pid].owner == Sink(id)
  }

  lemma SettledCanFetch(s: Sys, id: Uuid, status: IndexerStatus, pid: int)
    requires Settled(s, id, status, pid)
    ensures CanFetch(s.w, id)
  {
    assert HasScript(s, id) && Accepted(s.born[id]);
  }

  lemma StepAddsOnePid(w: World, id: Uuid, pc: Pc, a: Answer)
    ensures var w' := Apply(w, id, Decide(w, id, pc, a).effect);
            forall p | p in w'.procs :: p in w.procs || a == Spawned(p)
  {
  }

  /** A call uses at most the pid it was answered. */
  lemma {:induction false} CallAddsOnePid(w: World, id: Uuid, pc: Pc, a: Answers)
    ensures forall p | p in Complete(w, id, pc, a).w.procs :: p in w.procs || p == a.pid
    decreases Rank(pc)
  {
    if pc.Done? {
    } else {
      var d := Decide(w, id, pc, Reply(a, pc));
      StepAddsOnePid(w, id, pc, Reply(a, pc));
      RankDecreases(w, id, pc, Reply(a, pc));
      CallAddsOnePid(Apply(w, id, d.effect), id, d.pc, a);
    }
  }

  lemma StepKillsNothing(w: World, id: Uuid, pc: Pc, a: Answer)
    ensures var w' := Apply(w, id, Decide(w, id, pc, a).effect);
            forall p | Live(w, p) :: Live(w', p) && w'.procs[p].owner == w.procs[p].owner
  {
    SpawnsAndSignals(w, id, pc, a);
  }

  /** A call ends no process: what it signals is alive for now. */
  lemma {:induction false} CallKillsNothing(w: World, id: Uuid, pc: Pc, a: Answers)
    ensures var w' := Complete(w, id, pc, a).w;
            forall p | Live(w, p) :: Live(w', p) && w'.procs[p].owner == w.procs[p].owner
    decreases Rank(pc)
  {
    if pc.Done? {
    } else {
      var d := Decide(w, id, pc, Reply(a, pc));
      StepKillsNothing(w, id, pc, Reply(a, pc));
      RankDecreases(w, id, pc, Reply(a, pc));
      CallKillsNothing(Apply(w, id, d.effect), id, d.pc, a);
    }
  }

  function Creation(s: Sys, id: Uuid, r: CreateIndexerRequest, a: Answers): seq<Event> {
    Call(s.w, Ticket(id, 0), CreateInsert(r), a)
  }

  /** The first call: a creation, whatever its steps are answered. */
  lemma ReachCreated(s: Sys, id: Uuid, r: CreateIndexerRequest, a: Answers)
    requires CanCreate(s, id, r) && FreshPid(s.w, a)
    ensures var es := Creation(s, id, r, a);
            && OrderlyRun(s, es) && Ordered(Run(s, es))
            && Run(s, es) == Sys(Complete(s.w, id, CreateInsert(r), a).w, map[id := r], map[])
            && (forall p | p in Run(s, es).w.procs :: p in s.w.procs || p == a.pid)
  {
    CompleteIsARun(s, Ticket(id, 0), CreateInsert(r), a);
    CallAddsOnePid(s.w, id, CreateInsert(r), a);
    InitOrdered(s);
    RunOrdered(s, Creation(s, id, r, a));
  }

  /** A creation whose sink reports `status`. */
  lemma ReachSettled(s: Sys, id: Uuid, r: CreateIndexerRequest, pid: int, pid': int, status: int)
    returns (es: seq<Event>)
    requires CanCreate(s, id, r) && TwoPids(s, pid, pid')
    ensures es == Creation(s, id, r, Answers({}, pid, status, 0)) && OrderlyRun(s, es)
    ensures Settled(Run(s, es), id, if status == 1 then Running else FailedRunning, pid)
    ensures FreshPid(Run(s, es).w, Working(pid'))
  {
    var a := Answers({}, pid, status, 0);
    es := Creation(s, id, r, a);
    ReachCreated(s, id, r, a);
    CreateOutcome(s.w, id, r, a);
  }

  lemma ReachRunning(s: Sys, id: Uuid, r: CreateIndexerRequest, pid: int, pid': int) returns (es: seq<Event>)
    requires CanCreate(s, id, r) && TwoPids(s, pid, pid')
    ensures OrderlyRun(s, es) && Settled(Run(s, es), id, Running, pid) && FreshPid(Run(s, es).w, Working(pid'))
  {
    es := ReachSettled(s, id, r, pid, pid', 1);
  }

  /** A stop of a Running row signals its process, which lives on for now. */
  lemma StopSettled(s: Sys, id: Uuid, pid: int, pid': int) returns (es: seq<Event>)
    requires Settled(s, id, Running, pid) && FreshPid(s.w, Working(pid'))
    ensures es == Call(s.w, Ticket(id, 1), StopRead, Working(pid'))
    ensures OrderlyRun(s, es) && Settled(Run(s, es), id, Stopped, pid) && FreshPid(Run(s, es).w, Working(pid'))
  {
    StopClassification(s.w, id, Working(pid'));
    es := OneCall(s, id, StopRead, Working(pid'));
  }

  lemma ReachStopped(s: Sys, id: Uuid, r: CreateIndexerRequest, pid: int, pid': int) returns (es: seq<Event>)
    requires CanCreate(s, id, r) && TwoPids(s, pid, pid')
    ensures OrderlyRun(s, es) && Settled(Run(s, es), id, Stopped, pid) && FreshPid(Run(s, es).w, Working(pid'))
  {
    var create := ReachRunning(s, id, r, pid, pid');
    var stop := StopSettled(Run(s, create), id, pid, pid');
    Chain(s, create, stop);
    es := create + stop;
  }
}
