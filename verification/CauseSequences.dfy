/**
 * Which sequences of causes an id can have: exactly those in which a delete comes at most last. For each of
 * them the bound on live processes is met.
 */
module CauseSequences {
  import opened Wrappers
  import opened Domain
  import opened Request
  import opened Protocol
  import opened Interleaved
  import opened Guarantees
  import opened Orderly
  import opened Serial
  import opened Reachable
  import opened Accounting
  import opened Tightness
  import Boot

  predicate DeletesLast(cs: seq<Cause>) {
    forall i | 0 <= i < |cs| - 1 :: cs[i] != DeletedLive
  }

  predicate EndsInDelete(cs: seq<Cause>) {
    cs != [] && cs[|cs| - 1] == DeletedLive
  }

  /** Distinct pids the system has never seen. */
  predicate NewPids(w: World, pids: seq<int>) {
    && (forall i | 0 <= i < |pids| :: FreshPid(w, Working(pids[i])))
    && forall i, j | 0 <= i < j < |pids| :: pids[i] != pids[j]
  }

  // -------------------------------------------------------------------------
  // Processes only get more
  // -------------------------------------------------------------------------

  /** No process was ended, and at most one pid is new. */
  predicate Grows(w: World, w': World, pid: int) {
    && (forall p | p in w.procs && Live(w, p) :: Live(w', p) && w'.procs[p].owner == w.procs[p].owner)
    && forall p | p in w'.procs :: p in w.procs || p == pid
  }

  lemma CompleteGrows(w: World, id: Uuid, call: Pc, a: Answers)
    ensures Grows(w, Complete(w, id, call, a).w, a.pid)
  {
    CallKillsNothing(w, id, call, a);
    CallAddsOnePid(w, id, call, a);
  }

  lemma GrowsTwice(w: World, w1: World, w2: World, pid: int)
    requires Grows(w, w1, pid) && Grows(w1, w2, pid)
    ensures Grows(w, w2, pid)
  {
  }

  lemma SinksKept(s: Sys, s': Sys, id: Uuid, pid: int)
    requires Grows(s.w, s'.w, pid)
    ensures Sinks(s, id) <= Sinks(s', id)
  {
    forall p | p in Sinks(s, id) ensures p in Sinks(s', id) {
      assert Live(s.w, p);
    }
  }

  lemma OneMoreSink(s: Sys, s': Sys, id: Uuid, pid: int)
    requires Grows(s.w, s'.w, pid) && pid !in s.w.procs
    requires Live(s'.w, pid) && s'.w.procs[pid].owner == Sink(id)
    ensures |Sinks(s', id)| >= |Sinks(s, id)| + 1
  {
    SinksKept(s, s', id, pid);
    SubsetSize(Sinks(s, id) + {pid}, Sinks(s', id));
  }

  lemma PidsStayNew(w: World, w': World, pids: seq<int>)
    requires pids != [] && NewPids(w, pids) && Grows(w, w', pids[0])
    ensures NewPids(w', pids[1..])
  {
    forall i | 0 <= i < |pids[1..]| ensures FreshPid(w', Working(pids[1..][i])) {
      assert pids[1..][i] == pids[i + 1] != pids[0];
    }
  }

  // -------------------------------------------------------------------------
  // One more cause
  // -------------------------------------------------------------------------

  /** The run has the causes, ends quietly, and leaves a new live sink. */
  predicate Adds(s: Sys, es: seq<Event>, id: Uuid, cs: seq<Cause>, pid: int) {
    && OrderlyRun(s, es) && Causes(s, es, id) == cs
    && Grows(s.w, Run(s, es).w, pid)
    && Live(Run(s, es).w, pid) && Run(s, es).w.procs[pid].owner == Sink(id)
  }

  lemma SettledAgain(s: Sys, id: Uuid, pid: int)
    requires Ordered(s) && s.flights == map[]
    requires id in s.w.table && s.w.table[id].status == Running && s.w.table[id].processId == Some(pid)
    requires Live(s.w, pid) && s.w.procs[pid].owner == Sink(id)
    ensures Settled(s, id, Running, pid)
  {
  }

  /** A start that does not see the row's process. */
  lemma StartAgain(s: Sys, id: Uuid, status: IndexerStatus, pid: int, a: Answers) returns (es: seq<Event>)
    requires Settled(s, id, status, pid) && FreshPid(s.w, a)
    requires status == FailedRunning || status == Stopped || status == Running
    requires a.failing == if status == Running then {StartPs} else {}
    ensures Adds(s, es, id, [RestartCause(status)], a.pid) && Settled(Run(s, es), id, Running, a.pid)
  {
    SettledCanFetch(s, id, status, pid);
    es := OneCall(s, id, StartRead(None), a);
    RestartCauses(s, id, a);
    CompleteGrows(s.w, id, StartRead(None), a);
    StartedWorld(s.w, id, a);
    SettledAgain(Run(s, es), id, a.pid);
  }

  lemma StartedWorld(w: World, id: Uuid, a: Answers)
    requires CanFetch(w, id) && FreshPid(w, a) && a.failing <= {StartPs}
    requires var m := w.table[id];
             && m.status != FailedStopping
             && (m.status == Running ==> StartPs in a.failing && m.processId.Some?)
    ensures var w' := Complete(w, id, StartRead(None), a).w;
            && id in w'.table && w'.table[id].status == Running && w'.table[id].processId == Some(a.pid)
            && Live(w', a.pid) && w'.procs[a.pid].owner == Sink(id)
  {
    assert StartWorks(w, a);
    StartEdge(w, id, a);
  }

  /** A start that misreads a live process and then cannot record its own. */
  lemma LoseRecord(s: Sys, id: Uuid, pid: int, pid': int) returns (es: seq<Event>)
    requires Settled(s, id, Running, pid) && FreshPid(s.w, Working(pid'))
    ensures Adds(s, es, id, [LostRecord], pid') && Settled(Run(s, es), id, Running, pid)
  {
    SettledCanFetch(s, id, Running, pid);
    var a := Answers({StartPs, RecordPid}, pid', 1, 0);
    es := OneCall(s, id, StartRead(None), a);
    LostCauses(s, id, a);
    CompleteGrows(s.w, id, StartRead(None), a);
    LostWorld(s.w, id, a);
    SettledAgain(Run(s, es), id, pid);
  }

  lemma LostCauses(s: Sys, id: Uuid, a: Answers)
    requires s.flights == map[] && Boot.IsRunningRow(s.w, id) && FreshPid(s.w, a)
    requires a.failing == {StartPs, RecordPid} && s.w.table[id].processId.value in s.w.procs
    ensures Causes(s, Call(s.w, Ticket(id, 1), StartRead(None), a), id) == [LostRecord]
  {
    var t := Ticket(id, 1);
    CallCauses(s, t, StartRead(None), a);
    StartReadRest(Next(s, Begin(t, StartRead(None))), t, a);
  }

  lemma LostWorld(w: World, id: Uuid, a: Answers)
    requires Boot.IsRunningRow(w, id) && FreshPid(w, a) && a.failing == {StartPs, RecordPid}
    ensures var w' := Complete(w, id, StartRead(None), a).w;
            w'.table == w.table && Live(w', a.pid) && w'.procs[a.pid].owner == Sink(id)
  {
    Boot.StartResult(w, id, a);
  }

  /** A stop of a Running row, or a fail, which the handlers allow on its own: its process lives on for now. */
  lemma Leave(s: Sys, id: Uuid, status: IndexerStatus, pid: int, pid': int) returns (es: seq<Event>)
    requires Settled(s, id, Running, pid) && FreshPid(s.w, Working(pid'))
    requires status == Stopped || status == FailedRunning
    ensures OrderlyRun(s, es) && Causes(s, es, id) == [] && Grows(s.w, Run(s, es).w, pid')
    ensures Settled(Run(s, es), id, status, pid) && FreshPid(Run(s, es).w, Working(pid'))
  {
    if status == Stopped {
      es := StopSettled(s, id, pid, pid');
      StopCauses(s, id, Working(pid'));
      CallRuns(s, Ticket(id, 1), StopRead, Working(pid'));
      CompleteGrows(s.w, id, StopRead, Working(pid'));
    } else {
      es := FailSettled(s, id, pid, pid');
    }
  }

  lemma FailSettled(s: Sys, id: Uuid, pid: int, pid': int) returns (es: seq<Event>)
    requires Settled(s, id, Running, pid) && FreshPid(s.w, Working(pid'))
    ensures OrderlyRun(s, es) && Causes(s, es, id) == [] && Grows(s.w, Run(s, es).w, pid')
    ensures Settled(Run(s, es), id, FailedRunning, pid) && FreshPid(Run(s, es).w, Working(pid'))
  {
    es := OneCall(s, id, FailRead(None), Working(pid'));
    FailCauses(s, id, Working(pid'));
    FailOfRunning(s.w, id, Working(pid'));
  }

  lemma FailCauses(s: Sys, id: Uuid, a: Answers)
    requires s.flights == map[] && FreshPid(s.w, a)
    ensures Causes(s, Call(s.w, Ticket(id, 1), FailRead(None), a), id) == []
  {
    var t := Ticket(id, 1);
    CallCauses(s, t, FailRead(None), a);
    SafeRest(Next(s, Begin(t, FailRead(None))), t, a);
  }

  lemma LeaveAndStart(s: Sys, id: Uuid, status: IndexerStatus, pid: int, pid': int) returns (es: seq<Event>)
    requires Settled(s, id, Running, pid) && FreshPid(s.w, Working(pid'))
    requires status == Stopped || status == FailedRunning
    ensures Adds(s, es, id, [RestartCause(status)], pid') && Settled(Run(s, es), id, Running, pid')
  {
    var leave := Leave(s, id, status, pid, pid');
    var s1 := Run(s, leave);
    var start := StartAgain(s1, id, status, pid, Working(pid'));
    Chain(s, leave, start);
    CausesConcat(s, leave, start, id);
    GrowsTwice(s.w, s1.w, Run(s1, start).w, pid');
    es := leave + start;
  }

  /** One more cause, one more live process, and the row is Running again. */
  lemma OneMore(s: Sys, id: Uuid, c: Cause, pid: int, pid': int) returns (es: seq<Event>, now: int)
    requires Settled(s, id, Running, pid) && FreshPid(s.w, Working(pid')) && c != DeletedLive
    ensures Adds(s, es, id, [c], pid') && Settled(Run(s, es), id, Running, now)
  {
    if c == LostRecord {
      es := LoseRecord(s, id, pid, pid');
      now := pid;
    } else if c == RestartMisread {
      es := StartAgain(s, id, Running, pid, Answers({StartPs}, pid', 1, 0));
      now := pid';
    } else {
      var status := if c == RestartStopped then Stopped else FailedRunning;
      assert RestartCause(status) == c;
      es := LeaveAndStart(s, id, status, pid, pid');
      now := pid';
    }
  }

  /** A stop and then a delete before its signal took effect. */
  lemma StopAndDelete(s: Sys, id: Uuid, pid: int, pid': int) returns (es: seq<Event>)
    requires Settled(s, id, Running, pid) && FreshPid(s.w, Working(pid'))
    ensures OrderlyRun(s, es) && Run(s, es).flights == map[]
    ensures Causes(s, es, id) == [DeletedLive] && id !in Run(s, es).w.table
    ensures Sinks(s, id) <= Sinks(Run(s, es), id)
  {
    var leave := Leave(s, id, Stopped, pid, pid');
    var s1 := Run(s, leave);
    var del := DeleteKept(s1, id, pid, pid');
    Chain(s, leave, del);
    CausesConcat(s, leave, del, id);
    SinksKept(s, s1, id, pid');
    es := leave + del;
  }

  lemma DeleteKept(s: Sys, id: Uuid, pid: int, pid': int) returns (es: seq<Event>)
    requires Settled(s, id, Stopped, pid) && FreshPid(s.w, Working(pid'))
    ensures OrderlyRun(s, es) && Run(s, es).flights == map[]
    ensures Causes(s, es, id) == [DeletedLive] && id !in Run(s, es).w.table
    ensures Sinks(s, id) <= Sinks(Run(s, es), id)
  {
    es := DeleteRuns(s, id, pid, pid');
    CallRuns(s, Ticket(id, 1), DeleteRead, Working(pid'));
    CompleteGrows(s.w, id, DeleteRead, Working(pid'));
    SinksKept(s, Run(s, es), id, pid');
  }

  // -------------------------------------------------------------------------
  // Any sequence of causes
  // -------------------------------------------------------------------------

  /** The live processes a sequence of causes leaves, from a settled Running row. */
  predicate Meets(s: Sys, es: seq<Event>, id: Uuid, cs: seq<Cause>) {
    && OrderlyRun(s, es) && Run(s, es).flights == map[] && Causes(s, es, id) == cs
    && |Sinks(Run(s, es), id)| + (if EndsInDelete(cs) then 1 else 0) >= |Sinks(s, id)| + |cs|
    && RecordedCount(Run(s, es), id) == if EndsInDelete(cs) then 0 else 1
  }

  lemma MeetsMore(s: Sys, first: seq<Event>, rest: seq<Event>, id: Uuid, c: Cause, cs: seq<Cause>, pid: int)
    requires c != DeletedLive && pid !in s.w.procs && Adds(s, first, id, [c], pid) && Meets(Run(s, first), rest, id, cs)
    ensures Meets(s, first + rest, id, [c] + cs)
  {
    Chain(s, first, rest);
    CausesConcat(s, first, rest, id);
    OneMoreSink(s, Run(s, first), id, pid);
  }

  lemma DeleteMeets(s: Sys, id: Uuid, pid: int, pid': int) returns (es: seq<Event>)
    requires Settled(s, id, Running, pid) && FreshPid(s.w, Working(pid'))
    ensures Meets(s, es, id, [DeletedLive])
  {
    es := StopAndDelete(s, id, pid, pid');
    SubsetSize(Sinks(s, id), Sinks(Run(s, es), id));
  }

  lemma NoneMeets(s: Sys, id: Uuid, pid: int)
    requires Settled(s, id, Running, pid)
    ensures Meets(s, [], id, [])
  {
  }

  lemma {:induction false} CausesFollow(s: Sys, id: Uuid, cs: seq<Cause>, pids: seq<int>, pid: int)
    returns (es: seq<Event>)
    requires Settled(s, id, Running, pid) && DeletesLast(cs) && |pids| == |cs| && NewPids(s.w, pids)
    ensures Meets(s, es, id, cs)
    decreases |cs|, 1
  {
    if cs == [] {
      es := [];
      NoneMeets(s, id, pid);
    } else if cs[0] == DeletedLive {
      assert cs == [DeletedLive];
      es := DeleteMeets(s, id, pid, pids[0]);
    } else {
      assert [cs[0]] + cs[1..] == cs;
      es := OneFollowed(s, id, cs[0], cs[1..], pids, pid);
    }
  }

  lemma {:induction false} OneFollowed(s: Sys, id: Uuid, c: Cause, cs: seq<Cause>, pids: seq<int>, pid: int)
    returns (es: seq<Event>)
    requires Settled(s, id, Running, pid) && DeletesLast(cs) && |pids| == |cs| + 1 && NewPids(s.w, pids)
    requires c != DeletedLive
    ensures Meets(s, es, id, [c] + cs)
    decreases |cs| + 1, 0
  {
    var first, now := OneMore(s, id, c, pid, pids[0]);
    var s1 := Run(s, first);
    PidsStayNew(s.w, s1.w, pids);
    var rest := CausesFollow(s1, id, cs, pids[1..], now);
    MeetsMore(s, first, rest, id, c, cs, pids[0]);
    es := first + rest;
  }

  lemma CreateSettled(s: Sys, id: Uuid, r: CreateIndexerRequest, pids: seq<int>) returns (es: seq<Event>)
    requires CanCreate(s, id, r) && pids != [] && NewPids(s.w, pids)
    ensures OrderlyRun(s, es) && Causes(s, es, id) == []
    ensures Settled(Run(s, es), id, Running, pids[0]) && NewPids(Run(s, es).w, pids[1..])
  {
    var a := Working(pids[0]);
    es := Creation(s, id, r, a);
    ReachCreated(s, id, r, a);
    CreateOutcome(s.w, id, r, a);
    CreateRest(s, id, r, a);
    CompleteGrows(s.w, id, CreateInsert(r), a);
    PidsStayNew(s.w, Run(s, es).w, pids);
  }

  lemma SettledHasSink(s: Sys, id: Uuid, pid: int)
    requires Settled(s, id, Running, pid)
    ensures |Sinks(s, id)| >= 1
  {
    SubsetSize({pid}, Sinks(s, id));
  }

  /**
   * The bound is met for every sequence of causes in which a delete comes at most last: some orderly run
   * from the empty service has exactly these causes, in this order, and ends with as many live processes
   * as they allow.
   */
  lemma BoundIsMet(s: Sys, id: Uuid, r: CreateIndexerRequest, cs: seq<Cause>, pids: seq<int>)
    returns (es: seq<Event>)
    requires CanCreate(s, id, r) && DeletesLast(cs) && |pids| == |cs| + 1 && NewPids(s.w, pids)
    ensures OrderlyRun(s, es) && Run(s, es).flights == map[] && Causes(s, es, id) == cs
    ensures |Sinks(Run(s, es), id)| == RecordedCount(Run(s, es), id) + |cs|
  {
    var create := CreateSettled(s, id, r, pids);
    var s1 := Run(s, create);
    SettledHasSink(s1, id, pids[0]);
    var rest := CausesFollow(s1, id, cs, pids[1..], pids[0]);
    Chain(s, create, rest);
    CausesConcat(s, create, rest, id);
    es := create + rest;
    assert [] + cs == cs;
    ProcessesAreAccountedFor(s, es, id);
  }

  // -------------------------------------------------------------------------
  // No other sequence
  // -------------------------------------------------------------------------

  /** The id was created and deleted. */
  predicate IsGone(s: Sys, id: Uuid) {
    id in s.born && id !in s.w.table && !BeingCreated(s, id)
  }

  lemma NoCauseWithoutRow(s: Sys, e: Event, id: Uuid)
    requires FlightsFresh(s) && id !in s.w.table
    ensures CausesAt(s, e, id) == []
  {
    if (e.Move? || e.End?) && e.t in s.flights && e.t.id == id {
      assert FreshSnap(s, e.t, s.flights[e.t]);
    }
  }

  /** Nothing more happens to the processes of an id that is gone. */
  lemma {:induction false} GoneHasNoCauses(s: Sys, es: seq<Event>, id: Uuid)
    requires Ordered(s) && OrderlyRun(s, es) && IsGone(s, id)
    ensures Causes(s, es, id) == []
    decreases |es|
  {
    if es == [] {
    } else {
      NoCauseWithoutRow(s, es[0], id);
      StepOnward(s, es[0], id);
      NextOrdered(s, es[0]);
      GoneHasNoCauses(Next(s, es[0]), es[1..], id);
    }
  }

  lemma DeletedIsGone(s: Sys, e: Event, id: Uuid)
    requires Ordered(s) && CausesAt(s, e, id) == [DeletedLive]
    ensures IsGone(Next(s, e), id)
  {
    DeleteDropsRow(s, e, id);
    PresentRowIsCreated(s, id);
    StepOnward(s, e, id);
  }

  lemma DeleteDropsRow(s: Sys, e: Event, id: Uuid)
    requires FlightsFresh(s) && CausesAt(s, e, id) == [DeletedLive]
    ensures id in s.w.table && id !in Next(s, e).w.table
  {
    assert FreshSnap(s, e.t, s.flights[e.t]);
  }

  lemma OneInFront(front: seq<Cause>, rest: seq<Cause>)
    requires |front| <= 1 && DeletesLast(rest) && (front == [DeletedLive] ==> rest == [])
    ensures DeletesLast(front + rest)
  {
    forall i | 0 <= i < |front + rest| - 1 ensures (front + rest)[i] != DeletedLive {
      if i >= |front| {
        assert (front + rest)[i] == rest[i - |front|];
      }
    }
  }

  /** In every orderly run a delete comes at most last among the causes of an id. */
  lemma {:induction false} DeleteComesLast(s: Sys, es: seq<Event>, id: Uuid)
    requires Ordered(s) && OrderlyRun(s, es)
    ensures DeletesLast(Causes(s, es, id))
    decreases |es|
  {
    if es == [] {
    } else {
      var s', front := Next(s, es[0]), CausesAt(s, es[0], id);
      NextOrdered(s, es[0]);
      DeleteComesLast(s', es[1..], id);
      if front == [DeletedLive] {
        DeletedIsGone(s, es[0], id);
        GoneHasNoCauses(s', es[1..], id);
      }
      OneInFront(front, Causes(s', es[1..], id));
    }
  }
}
