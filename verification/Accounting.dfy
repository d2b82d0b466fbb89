/** How many live sink processes an id can have after an orderly run, and why. */
module Accounting {
  import opened Wrappers
  import opened Domain
  import opened Protocol
  import opened Interleaved
  import opened Guarantees
  import opened Orderly
  import opened Pids

  /** The events that leave a live process no row records. */
  datatype Cause =
    | LostRecord            // the update after a spawn failed, or its handler was dropped
    | RestartFailedRunning  // a start from FailedRunning while the old process lives
    | RestartStopped        // a start from Stopped before the kill took effect
    | RestartMisread        // a start from Running whose liveness check misread a live process
    | DeletedLive           // a delete before the kill took effect

  predicate RecordedLive(s: Sys, m: IndexerModel) {
    m.processId.Some? && Live(s.w, m.processId.value)
  }

  function RestartCause(status: IndexerStatus): Cause {
    match status
    case FailedRunning => RestartFailedRunning
    case Running => RestartMisread
    case _ => RestartStopped
  }

  function CauseOf(s: Sys, e: Event): Option<Cause> {
    if (e.Move? || e.End?) && e.t in s.flights then
      var pc := s.flights[e.t];
      if e.End? then if pc.StartRecord? then Some(LostRecord) else None
      else if pc.StartRecord? then
        if !e.answer.Ok? then Some(LostRecord)
        else if RecordedLive(s, pc.snap) then Some(RestartCause(pc.snap.status))
        else None
      else if pc.DeleteWrite? && e.answer.Ok? && RecordedLive(s, pc.snap) then Some(DeletedLive)
      else None
    else None
  }

  function CausesAt(s: Sys, e: Event, id: Uuid): seq<Cause> {
    if CauseOf(s, e).Some? && IdOf(e) == id then [CauseOf(s, e).value] else []
  }

  /** What happened to the processes of an id in a run. */
  function Causes(s: Sys, es: seq<Event>, id: Uuid): seq<Cause>
    decreases |es|
  {
    if es == [] then [] else CausesAt(s, es[0], id) + Causes(Next(s, es[0]), es[1..], id)
  }

  /** The live sink processes of an id. */
  function Sinks(s: Sys, id: Uuid): set<int> {
    set p | p in s.w.procs && s.w.procs[p].owner == Sink(id) && s.w.procs[p].IsLive()
  }

  predicate Recorded(s: Sys, id: Uuid, pid: int) {
    id in s.w.table && s.w.table[id].processId == Some(pid)
  }

  /** How many live processes the row of an id records. */
  function RecordedCount(s: Sys, id: Uuid): nat {
    if id in s.w.table && RecordedLive(s, s.w.table[id]) then 1 else 0
  }

  /** Spawned by a handler that has yet to record it. */
  predicate BeingRecorded(s: Sys, id: Uuid, pid: int) {
    exists t :: t in s.flights && t.id == id && s.flights[t].StartRecord? && s.flights[t].pid == pid
  }

  function Strays(s: Sys, id: Uuid): set<int> {
    set p | p in Sinks(s, id) && !Recorded(s, id, p) && !BeingRecorded(s, id, p)
  }

  /** The pid an event may turn into a stray. */
  function Abandoned(s: Sys, e: Event): int
    requires CauseOf(s, e).Some?
  {
    match CauseOf(s, e).value
    case LostRecord => s.flights[e.t].pid
    case _ => s.flights[e.t].snap.processId.value
  }

  /** Only a spawn makes a process of an id live, and its handler is about to record it. */
  lemma NewSinks(s: Sys, e: Event, id: Uuid, pid: int)
    requires IsOrderly(s, e) && pid in Sinks(Next(s, e), id) && pid !in Sinks(s, id)
    ensures BeingRecorded(Next(s, e), id, pid)
  {
    if e.Move? {
      SpawnsAndSignals(s.w, e.t.id, s.flights[e.t], e.answer);
    }
  }

  /** A process stops being recorded by its row only through a restart or a delete. */
  lemma Unrecorded(s: Sys, e: Event, id: Uuid, pid: int)
    requires FlightsFresh(s) && FlightsOk(s)
    requires pid in Sinks(s, id) && Recorded(s, id, pid) && !Recorded(Next(s, e), id, pid)
    ensures CauseOf(s, e).Some? && IdOf(e) == id && Abandoned(s, e) == pid
  {
    ChangesAreExplained(s, e, id);
    assert FreshSnap(s, e.t, s.flights[e.t]) && PcOk(s, e.t, s.flights[e.t]);
  }

  /** A handler stops holding a spawned process by recording it, failing to, or being dropped. */
  lemma NoLongerBeingRecorded(s: Sys, e: Event, id: Uuid, pid: int)
    requires FlightsFresh(s)
    requires BeingRecorded(s, id, pid) && !BeingRecorded(Next(s, e), id, pid)
    ensures || Recorded(Next(s, e), id, pid)
            || (CauseOf(s, e) == Some(LostRecord) && IdOf(e) == id && Abandoned(s, e) == pid)
  {
    var t :| t in s.flights && t.id == id && s.flights[t].StartRecord? && s.flights[t].pid == pid;
    assert FreshSnap(s, t, s.flights[t]);
    assert e.Move? || e.End?;
    assert e.t == t;
  }

  lemma StrayStep(s: Sys, e: Event, id: Uuid)
    requires Ordered(s) && IsOrderly(s, e)
    ensures |Strays(Next(s, e), id)| <= |Strays(s, id)| + |CausesAt(s, e, id)|
  {
    var s' := Next(s, e);
    var extra := if CauseOf(s, e).Some? && IdOf(e) == id then {Abandoned(s, e)} else {};
    forall p | p in Strays(s', id) ensures p in Strays(s, id) + extra {
      if p !in Sinks(s, id) {
        NewSinks(s, e, id, p);
      } else if Recorded(s, id, p) {
        Unrecorded(s, e, id, p);
      } else if BeingRecorded(s, id, p) {
        NoLongerBeingRecorded(s, e, id, p);
      }
    }
    SubsetSize(Strays(s', id), Strays(s, id) + extra);
  }

  lemma SubsetSize<T>(a: set<T>, b: set<T>)
    requires a <= b
    ensures |a| <= |b|
  {
    assert |b| == |a| + |b - a| by { assert b == a + (b - a); }
  }

  lemma {:induction false} StrayRun(s: Sys, es: seq<Event>, id: Uuid)
    requires Ordered(s) && OrderlyRun(s, es)
    ensures |Strays(Run(s, es), id)| <= |Strays(s, id)| + |Causes(s, es, id)|
    decreases |es|
  {
    if es == [] {
    } else {
      StrayStep(s, es[0], id);
      NextOrdered(s, es[0]);
      StrayRun(Next(s, es[0]), es[1..], id);
    }
  }

  /**
   * From the empty service, whenever no handler of `id` is between spawn and record: at most the one live
   * process a row records, plus one for every counted event.
   */
  lemma ProcessesAreAccountedFor(s: Sys, es: seq<Event>, id: Uuid)
    requires Init(s) && OrderlyRun(s, es)
    requires forall p :: !BeingRecorded(Run(s, es), id, p)
    ensures |Sinks(Run(s, es), id)| <= RecordedCount(Run(s, es), id) + |Causes(s, es, id)|
    ensures Causes(s, es, id) == [] ==> forall p | p in Sinks(Run(s, es), id) :: Recorded(Run(s, es), id, p)
    ensures var row := RowAt(Run(s, es), id);
            Causes(s, es, id) == [] && (row.None? || row.value.status == Created) ==> Sinks(Run(s, es), id) == {}
  {
    InitOrdered(s);
    StrayRun(s, es, id);
    RunOrdered(s, es);
    assert Strays(s, id) == {};
    var s' := Run(s, es);
    var own := if RecordedCount(s', id) == 1 then {s'.w.table[id].processId.value} else {};
    SubsetSize(Sinks(s', id), Strays(s', id) + own);
    if Causes(s, es, id) == [] {
      assert Strays(s', id) == {};
      forall p | p in Sinks(s', id) ensures Recorded(s', id, p) {
        assert p !in Strays(s', id);
      }
    }
  }

  // -------------------------------------------------------------------------
  // When no liveness check fails
  // -------------------------------------------------------------------------

  /** Every `ps` pipeline of this event works. */
  predicate ChecksWork(s: Sys, e: Event) {
    e.Move? && e.t in s.flights ==>
      var pc := s.flights[e.t];
      pc.StartCheck? || pc.StopCheck? || pc.UpdateCheck? ==> e.answer.Ok?
  }

  predicate AllChecksWork(s: Sys, es: seq<Event>)
    decreases |es|
  {
    es == [] || (ChecksWork(s, es[0]) && AllChecksWork(Next(s, es[0]), es[1..]))
  }

  /** Neither signalled nor dead: a process nobody asked to stop. */
  predicate RunsOn(s: Sys, m: IndexerModel) {
    m.processId.Some? && m.processId.value in s.w.procs && s.w.procs[m.processId.value].state == Alive
  }

  predicate Checked(s: Sys, pc: Pc) {
    match pc
    case StartFetch(_, m) => m.status == Running ==> !RecordedLive(s, m)
    case StartCreateFile(_, m, _) => m.status == Running ==> !RecordedLive(s, m)
    case StartWriteFile(_, m, _) => m.status == Running ==> !RecordedLive(s, m)
    case StartSpawn(_, m) => m.status == Running ==> !RecordedLive(s, m)
    case StartRecord(_, m, _) => m.status == Running ==> !RecordedLive(s, m)
    case StopWrite(m, target) => target == Stopped ==> !RunsOn(s, m)
    case UpdateWrite(m, _) => !RecordedLive(s, m)
    case _ => true
  }

  predicate ChecksHeeded(s: Sys) {
    && (forall t | t in s.flights :: Checked(s, s.flights[t]))
    && (forall id | id in s.w.table && s.w.table[id].status == Stopped :: !RunsOn(s, s.w.table[id]))
  }

  /** A pid never comes back to life, nor forgets a signal. */
  lemma NoRevival(s: Sys, e: Event, m: IndexerModel, id: Uuid)
    requires IsOrderly(s, e) && m.processId.Some? && OwnedPid(s, id, m.processId.value)
    ensures !RecordedLive(s, m) ==> !RecordedLive(Next(s, e), m)
    ensures !RunsOn(s, m) ==> !RunsOn(Next(s, e), m)
  {
    if e.Move? {
      SpawnsAndSignals(s.w, e.t.id, s.flights[e.t], e.answer);
    }
  }

  lemma OwnStartChecked(s: Sys, t: Ticket, a: Answer)
    requires t in s.flights && IsStartPc(s.flights[t]) && ChecksWork(s, Move(t, a))
    requires Checked(s, s.flights[t]) && Gate(s.flights[t])
    ensures Checked(s, DecideStart(s.w, t.id, s.flights[t], a).pc)
  {
  }

  lemma StopCheckChecked(s: Sys, t: Ticket, m: IndexerModel)
    requires t in s.flights && m.processId.Some? && s.flights[t] == StopCheck(m)
    ensures Checked(s, DecideStop(s.w, t.id, StopCheck(m), Ok).pc)
  {
    StopStatus(m.id, 0);
  }

  lemma StopKillChecked(s: Sys, t: Ticket, m: IndexerModel, pid: int, a: Answer)
    requires t in s.flights && m.processId == Some(pid)
    ensures var d := DecideStop(s.w, t.id, StopKill(m, pid), a);
            Checked(s.(w := Apply(s.w, t.id, d.effect)), d.pc)
  {
    StopStatus(t.id, pid);
  }

  lemma UpdateChecked(s: Sys, t: Ticket, a: Answer)
    requires t in s.flights && IsUpdatePc(s.flights[t]) && ChecksWork(s, Move(t, a))
    ensures Checked(s, DecideUpdate(s.w, t.id, s.flights[t], a).pc)
  {
  }

  lemma OtherChecked(s: Sys, id: Uuid, pc: Pc, a: Answer)
    requires !IsStartPc(pc) && !IsUpdatePc(pc) && !pc.StopCheck? && !pc.StopKill? && !pc.StopWrite? && !pc.UpdateWrite?
    ensures Checked(s, Decide(s.w, id, pc, a).pc)
  {
  }

  /** What is checked of a point depends on the processes alone. */
  lemma CheckedByProcs(s: Sys, s': Sys, pc: Pc)
    requires s.w.procs == s'.w.procs
    ensures Checked(s, pc) == Checked(s', pc)
  {
  }

  lemma QuietChecked(s: Sys, t: Ticket, a: Answer)
    requires t in s.flights && ChecksWork(s, Move(t, a)) && PcOk(s, t, s.flights[t])
    requires !IsStartPc(s.flights[t]) && !s.flights[t].StopKill?
    ensures Checked(s, Decide(s.w, t.id, s.flights[t], a).pc)
  {
    var pc := s.flights[t];
    if pc.StopCheck? {
      StopCheckChecked(s, t, pc.snap);
    } else if IsUpdatePc(pc) {
      UpdateChecked(s, t, a);
    } else if !pc.StopWrite? {
      OtherChecked(s, t.id, pc, a);
    }
  }

  lemma OwnKillChecked(s: Sys, t: Ticket, a: Answer)
    requires t in s.flights && s.flights[t].StopKill? && PcOk(s, t, s.flights[t])
    ensures Checked(Next(s, Move(t, a)), Decide(s.w, t.id, s.flights[t], a).pc)
  {
    var pc, d, s' := s.flights[t], Decide(s.w, t.id, s.flights[t], a), Next(s, Move(t, a));
    StopKillChecked(s, t, pc.snap, pc.pid, a);
    CheckedByProcs(s.(w := Apply(s.w, t.id, d.effect)), s', d.pc);
  }

  lemma OwnQuietChecked(s: Sys, t: Ticket, a: Answer)
    requires t in s.flights && !s.flights[t].Done? && PcOk(s, t, s.flights[t]) && Checked(s, s.flights[t])
    requires !s.flights[t].StartSpawn? && !s.flights[t].StopKill? && ChecksWork(s, Move(t, a))
    ensures Checked(Next(s, Move(t, a)), Decide(s.w, t.id, s.flights[t], a).pc)
  {
    var pc, d, s' := s.flights[t], Decide(s.w, t.id, s.flights[t], a), Next(s, Move(t, a));
    SpawnsAndSignals(s.w, t.id, pc, a);
    if IsStartPc(pc) {
      OwnStartChecked(s, t, a);
    } else {
      QuietChecked(s, t, a);
    }
    CheckedByProcs(s, s', d.pc);
  }

  lemma OwnChecked(s: Sys, t: Ticket, a: Answer)
    requires Ordered(s) && ChecksHeeded(s) && IsOrderly(s, Move(t, a)) && ChecksWork(s, Move(t, a))
    ensures Checked(Next(s, Move(t, a)), Decide(s.w, t.id, s.flights[t], a).pc)
  {
    assert PcOk(s, t, s.flights[t]) && Checked(s, s.flights[t]);
    if s.flights[t].StartSpawn? {
      SpawnKeepsChecked(s, t, a);
    } else if s.flights[t].StopKill? {
      OwnKillChecked(s, t, a);
    } else {
      OwnQuietChecked(s, t, a);
    }
  }

  lemma SpawnKeepsSnap(w: World, id: Uuid, pc: Pc, a: Answer)
    requires pc.StartSpawn?
    ensures var next := Decide(w, id, pc, a).pc;
            next.Done? || (next.StartRecord? && next.snap == pc.snap)
  {
  }

  lemma SpawnKeepsChecked(s: Sys, t: Ticket, a: Answer)
    requires Ordered(s) && IsOrderly(s, Move(t, a)) && s.flights[t].StartSpawn? && Checked(s, s.flights[t])
    ensures Checked(Next(s, Move(t, a)), Decide(s.w, t.id, s.flights[t], a).pc)
  {
    var m := s.flights[t].snap;
    SpawnKeepsSnap(s.w, t.id, s.flights[t], a);
    assert FreshSnap(s, t, s.flights[t]);
    if m.processId.Some? {
      assert OwnedPid(s, t.id, m.processId.value);
      NoRevival(s, Move(t, a), m, t.id);
    }
  }

  lemma OthersStayChecked(s: Sys, e: Event, t: Ticket)
    requires Ordered(s) && ChecksHeeded(s) && IsOrderly(s, e)
    requires t in s.flights && !(e.Move? && e.t == t)
    ensures Checked(Next(s, e), s.flights[t])
  {
    var pc := s.flights[t];
    assert Checked(s, pc) && FreshSnap(s, t, pc) && PcOk(s, t, pc);
    if SnapOf(pc).Some? && SnapOf(pc).value.processId.Some? {
      assert OwnedPid(s, t.id, SnapOf(pc).value.processId.value);
      NoRevival(s, e, SnapOf(pc).value, t.id);
    }
  }

  lemma RowsStayChecked(s: Sys, e: Event, id: Uuid)
    requires Ordered(s) && ChecksHeeded(s) && IsOrderly(s, e)
    requires id in Next(s, e).w.table && Next(s, e).w.table[id].status == Stopped
    ensures !RunsOn(Next(s, e), Next(s, e).w.table[id])
  {
    var s' := Next(s, e);
    if RowAt(s, id) != RowAt(s', id) {
      ChangesAreExplained(s, e, id);
      var pc := s.flights[e.t];
      assert Checked(s, pc) && FreshSnap(s, e.t, pc) && PcOk(s, e.t, pc);
      assert s'.w.procs == s.w.procs;
    } else if s.w.table[id].processId.Some? {
      assert OwnedPid(s, id, s.w.table[id].processId.value);
      NoRevival(s, e, s.w.table[id], id);
    }
  }

  lemma NextChecked(s: Sys, e: Event)
    requires Ordered(s) && ChecksHeeded(s) && IsOrderly(s, e) && ChecksWork(s, e)
    ensures ChecksHeeded(Next(s, e))
  {
    var s' := Next(s, e);
    forall t | t in s'.flights ensures Checked(s', s'.flights[t]) {
      if e.Move? && e.t == t {
        OwnChecked(s, t, e.answer);
      } else if t in s.flights {
        OthersStayChecked(s, e, t);
      }
    }
    forall id | id in s'.w.table && s'.w.table[id].status == Stopped ensures !RunsOn(s', s'.w.table[id]) {
      RowsStayChecked(s, e, id);
    }
  }

  lemma {:induction false} RunChecked(s: Sys, es: seq<Event>)
    requires Ordered(s) && ChecksHeeded(s) && OrderlyRun(s, es) && AllChecksWork(s, es)
    ensures Ordered(Run(s, es)) && ChecksHeeded(Run(s, es))
    decreases |es|
  {
    if es == [] {
    } else {
      NextChecked(s, es[0]);
      NextOrdered(s, es[0]);
      RunChecked(Next(s, es[0]), es[1..]);
    }
  }

  lemma InitChecked(s: Sys)
    requires Init(s)
    ensures ChecksHeeded(s)
  {
  }

  /**
   * When every liveness check works, no restart from Running abandons a live process, and every live
   * process a Stopped row records has been sent the signal.
   */
  lemma WorkingChecks(s: Sys, es: seq<Event>, e: Event, id: Uuid)
    requires Init(s) && OrderlyRun(s, es) && AllChecksWork(s, es)
    ensures CauseOf(Run(s, es), e) != Some(RestartMisread)
    ensures var s' := Run(s, es);
            id in s'.w.table && s'.w.table[id].status == Stopped && RecordedLive(s', s'.w.table[id]) ==>
              s'.w.procs[s'.w.table[id].processId.value].state == Signalled
  {
    InitOrdered(s);
    InitChecked(s);
    RunChecked(s, es);
    var s' := Run(s, es);
    NoMisread(s', e);
    if id in s'.w.table && s'.w.table[id].status == Stopped && RecordedLive(s', s'.w.table[id]) {
      StoppedIsSignalled(s', id);
    }
  }

  lemma NoMisread(s: Sys, e: Event)
    requires ChecksHeeded(s)
    ensures CauseOf(s, e) != Some(RestartMisread)
  {
    if e.Move? && e.t in s.flights {
      assert Checked(s, s.flights[e.t]);
    }
  }

  lemma StoppedIsSignalled(s: Sys, id: Uuid)
    requires ChecksHeeded(s) && id in s.w.table && s.w.table[id].status == Stopped
    requires RecordedLive(s, s.w.table[id])
    ensures s.w.procs[s.w.table[id].processId.value].state == Signalled
  {
  }
}
