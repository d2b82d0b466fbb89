/**
 * The bound on live processes is tight: for each cause there is an orderly run from the empty service with
 * that one cause and nothing else, at whose end the bound is met.
 */
module Tightness {
  import opened Wrappers
  import opened Domain
  import opened Request
  import opened IndexerTypes
  import opened Protocol
  import opened Interleaved
  import opened Orderly
  import opened Serial
  import opened Reachable
  import opened Accounting

  // -------------------------------------------------------------------------
  // The causes of a call made alone
  // -------------------------------------------------------------------------

  lemma FirstCause(s: Sys, e: Event, rest: seq<Event>, id: Uuid)
    ensures Causes(s, [e] + rest, id) == CausesAt(s, e, id) + Causes(Next(s, e), rest, id)
  {
    assert ([e] + rest)[1..] == rest;
  }

  lemma Regroup(a: seq<Cause>, b: seq<Cause>, c: seq<Cause>)
    ensures a + (b + c) == a + b + c
  {
  }

  lemma ConcatHead(s: Sys, e: Event, s': Sys, rest: seq<Event>, fs: seq<Event>, id: Uuid)
    requires s' == Next(s, e)
    requires Causes(s', rest + fs, id) == Causes(s', rest, id) + Causes(Run(s', rest), fs, id)
    ensures Causes(s, [e] + (rest + fs), id) == Causes(s, [e] + rest, id) + Causes(Run(s, [e] + rest), fs, id)
  {
    FirstCause(s, e, rest + fs, id);
    FirstCause(s, e, rest, id);
    FirstStep(s, e, rest);
    Regroup(CausesAt(s, e, id), Causes(s', rest, id), Causes(Run(s', rest), fs, id));
  }

  lemma Rejoin(e: Event, rest: seq<Event>, fs: seq<Event>)
    ensures [e] + (rest + fs) == [e] + rest + fs
  {
  }

  lemma {:induction false} CausesConcat(s: Sys, es: seq<Event>, fs: seq<Event>, id: Uuid)
    ensures Causes(s, es + fs, id) == Causes(s, es, id) + Causes(Run(s, es), fs, id)
    decreases |es|, 1
  {
    if es == [] {
      assert es + fs == fs;
      Regroup([], [], Causes(s, fs, id));
    } else {
      var e, rest := es[0], es[1..];
      assert es == [e] + rest;
      CausesConcatHead(s, e, rest, fs, id);
    }
  }

  lemma {:induction false} CausesConcatHead(s: Sys, e: Event, rest: seq<Event>, fs: seq<Event>, id: Uuid)
    ensures Causes(s, [e] + rest + fs, id) == Causes(s, [e] + rest, id) + Causes(Run(s, [e] + rest), fs, id)
    decreases |rest| + 1, 0
  {
    CausesConcat(Next(s, e), rest, fs, id);
    ConcatHead(s, e, Next(s, e), rest, fs, id);
    Rejoin(e, rest, fs);
  }

  lemma CausesOfOne(s: Sys, e: Event, id: Uuid)
    ensures Causes(s, [e], id) == CausesAt(s, e, id)
  {
    FirstCause(s, e, [], id);
    assert [e] + [] == [e];
  }

  /** The causes of what a handler still does, alone. */
  function Rest(s: Sys, t: Ticket, a: Answers): seq<Cause>
    requires t in s.flights
  {
    Causes(s, Steps(s.w, t, s.flights[t], a), t.id)
  }

  /** A handler's next step, when nobody else acts. */
  function Step(s: Sys, t: Ticket, a: Answers): Sys
    requires t in s.flights && !s.flights[t].Done?
  {
    Next(s, Move(t, Reply(a, s.flights[t])))
  }

  lemma RestAfterStep(s: Sys, t: Ticket, a: Answers)
    requires t in s.flights && !s.flights[t].Done?
    ensures Rest(s, t, a) == CausesAt(s, Move(t, Reply(a, s.flights[t])), t.id) + Rest(Step(s, t, a), t, a)
  {
    var pc := s.flights[t];
    var e, s' := Move(t, Reply(a, pc)), Step(s, t, a);
    RankDecreases(s.w, t.id, pc, Reply(a, pc));
    var rest := Steps(s'.w, t, s'.flights[t], a);
    assert Steps(s.w, t, pc, a) == [e] + rest;
    FirstCause(s, e, rest, t.id);
  }

  /** Where a handler can still start or delete. */
  predicate IsRisky(pc: Pc) {
    MaySpawn(pc) || pc.StartRecord? || pc.DeleteRead? || pc.DeleteWrite?
  }

  lemma StaysSafe(w: World, id: Uuid, pc: Pc, a: Answer)
    requires !IsRisky(pc)
    ensures !IsRisky(Decide(w, id, pc, a).pc)
  {
  }

  lemma {:induction false} SafeRest(s: Sys, t: Ticket, a: Answers)
    requires t in s.flights && !IsRisky(s.flights[t])
    ensures Rest(s, t, a) == []
    decreases Rank(s.flights[t])
  {
    if s.flights[t].Done? {
    } else {
      var pc := s.flights[t];
      RestAfterStep(s, t, a);
      StaysSafe(s.w, t.id, pc, Reply(a, pc));
      RankDecreases(s.w, t.id, pc, Reply(a, pc));
      SafeRest(Step(s, t, a), t, a);
    }
  }

  /** A step that is no cause. */
  lemma QuietStep(s: Sys, t: Ticket, a: Answers)
    requires t in s.flights && !s.flights[t].Done? && !s.flights[t].StartRecord? && !s.flights[t].DeleteWrite?
    ensures Rest(s, t, a) == Rest(Step(s, t, a), t, a)
  {
    RestAfterStep(s, t, a);
  }

  /** What a start from row m costs once it gets to its record. */
  function StartCauses(s: Sys, m: IndexerModel, a: Answers): seq<Cause> {
    if !a.Works(RecordPid) then [LostRecord]
    else if RecordedLive(s, m) then [RestartCause(m.status)]
    else []
  }

  /** A start past its gate, whose steps up to the record all work. */
  predicate OnItsWay(s: Sys, t: Ticket, m: IndexerModel, a: Answers) {
    && t in s.flights && IsStartPc(s.flights[t]) && SnapOf(s.flights[t]) == Some(m) && !s.flights[t].StartCheck?
    && IsStartable(m) && ScriptKey(t.id) in s.w.store && FileWorks(a) && a.Works(SpawnSink)
    && (!s.flights[t].StartRecord? ==> FreshPid(s.w, a))
    && (m.processId.Some? ==> m.processId.value in s.w.procs)
  }

  lemma StaysOnItsWay(s: Sys, t: Ticket, m: IndexerModel, a: Answers)
    requires OnItsWay(s, t, m, a) && !s.flights[t].StartRecord?
    ensures OnItsWay(Step(s, t, a), t, m, a) && StartCauses(Step(s, t, a), m, a) == StartCauses(s, m, a)
  {
  }

  lemma RecordCauses(s: Sys, t: Ticket, m: IndexerModel, a: Answers)
    requires OnItsWay(s, t, m, a) && s.flights[t].StartRecord?
    ensures CausesAt(s, Move(t, Reply(a, s.flights[t])), t.id) == StartCauses(s, m, a)
    ensures !IsRisky(Step(s, t, a).flights[t])
  {
  }

  lemma {:induction false} StartRest(s: Sys, t: Ticket, m: IndexerModel, a: Answers)
    requires OnItsWay(s, t, m, a)
    ensures Rest(s, t, a) == StartCauses(s, m, a)
    decreases Rank(s.flights[t])
  {
    var pc := s.flights[t];
    if pc.StartRecord? {
      RecordCauses(s, t, m, a);
      RestAfterStep(s, t, a);
      SafeRest(Step(s, t, a), t, a);
    } else {
      StaysOnItsWay(s, t, m, a);
      QuietStep(s, t, a);
      RankDecreases(s.w, t.id, pc, Reply(a, pc));
      StartRest(Step(s, t, a), t, m, a);
    }
  }

  /** A whole call: nothing happens at its beginning and at its end. */
  lemma CallCauses(s: Sys, t: Ticket, call: Pc, a: Answers)
    requires s.flights == map[] && Enabled(s, Begin(t, call)) && FreshPid(s.w, a)
    ensures Causes(s, Call(s.w, t, call, a), t.id) == Rest(Next(s, Begin(t, call)), t, a)
  {
    var begin, steps := Begin(t, call), Steps(s.w, t, call, a);
    EndIsQuiet(Next(s, begin), t, a);
    FirstCause(s, begin, steps + [End(t)], t.id);
    assert Call(s.w, t, call, a) == [begin] + (steps + [End(t)]);
  }

  lemma EndIsQuiet(s: Sys, t: Ticket, a: Answers)
    requires t in s.flights
    ensures Causes(s, Steps(s.w, t, s.flights[t], a) + [End(t)], t.id) == Rest(s, t, a)
  {
    var steps := Steps(s.w, t, s.flights[t], a);
    StepsRun(s, t, a);
    CausesConcat(s, steps, [End(t)], t.id);
    CausesOfOne(Run(s, steps), End(t), t.id);
  }

  // -------------------------------------------------------------------------
  // Calls
  // -------------------------------------------------------------------------

  /** The start inside a creation. */
  lemma CreateRest(s: Sys, id: Uuid, r: CreateIndexerRequest, a: Answers)
    requires CanCreate(s, id, r) && FreshPid(s.w, a) && a.failing <= {RecordPid}
    ensures Causes(s, Creation(s, id, r, a), id) == if RecordPid in a.failing then [LostRecord] else []
  {
    var t := Ticket(id, 0);
    CallCauses(s, t, CreateInsert(r), a);
    var s1 := Next(s, Begin(t, CreateInsert(r)));
    CommitRest(s1, t, r, a);
    var k := Some(NewRow(id, r));
    StartReadRest(s1.(w := AfterCommit(s1.w, id, r), flights := s1.flights[t := StartRead(k)]), t, a);
  }

  lemma CommitRest(s: Sys, t: Ticket, r: CreateIndexerRequest, a: Answers)
    requires t in s.flights && s.flights[t] == CreateInsert(r) && CreationWorks(a)
    ensures var s' := s.(w := AfterCommit(s.w, t.id, r), flights := s.flights[t := StartRead(Some(NewRow(t.id, r)))]);
            Rest(s, t, a) == Rest(s', t, a)
  {
    var k := Some(NewRow(t.id, r));
    QuietStep(s, t, a);
    var s1 := s.(flights := s.flights[t := CreateUpload(r)]);
    assert Step(s, t, a) == s1;
    UploadRest(s1, t, r, a);
    var stored := s.w.(store := s.w.store[ScriptKey(t.id) := r.data]);
    var s2 := s1.(w := stored, flights := s1.flights[t := CreateCommit(r)]);
    InsertedRest(s2, t, r, a);
    assert s2.flights[t := StartRead(k)] == s.flights[t := StartRead(k)];
  }

  lemma UploadRest(s: Sys, t: Ticket, r: CreateIndexerRequest, a: Answers)
    requires t in s.flights && s.flights[t] == CreateUpload(r) && a.Works(UploadScript)
    ensures var w := s.w.(store := s.w.store[ScriptKey(t.id) := r.data]);
            Rest(s, t, a) == Rest(s.(w := w, flights := s.flights[t := CreateCommit(r)]), t, a)
  {
    QuietStep(s, t, a);
  }

  lemma InsertedRest(s: Sys, t: Ticket, r: CreateIndexerRequest, a: Answers)
    requires t in s.flights && s.flights[t] == CreateCommit(r) && a.Works(CommitCreate)
    ensures var row := NewRow(t.id, r);
            var s' := s.(w := s.w.(table := s.w.table[t.id := row]), flights := s.flights[t := StartRead(Some(row))]);
            Rest(s, t, a) == Rest(s', t, a)
  {
    QuietStep(s, t, a);
  }

  /** From its read, a start of a row whose process it does not see running costs what its record costs. */
  lemma StartReadRest(s: Sys, t: Ticket, a: Answers)
    requires t in s.flights && s.flights[t].StartRead? && CanFetch(s.w, t.id) && FreshPid(s.w, a)
    requires var m := s.w.table[t.id];
             && m.status != FailedStopping && (m.status == Running ==> StartPs in a.failing)
             && (m.status == Running ==> m.processId.Some?)
             && (m.processId.Some? ==> m.processId.value in s.w.procs)
    requires a.failing <= {RecordPid, StartPs}
    ensures Rest(s, t, a) == StartCauses(s, s.w.table[t.id], a)
  {
    var m := s.w.table[t.id];
    QuietStep(s, t, a);
    var s1 := Step(s, t, a);
    if m.status == Running {
      QuietStep(s1, t, a);
      StartRest(Step(s1, t, a), t, m, a);
    } else {
      StartRest(s1, t, m, a);
    }
  }

  /** A second start, of a row whose process is alive. */
  lemma RestartRuns(s: Sys, id: Uuid, status: IndexerStatus, pid: int, a: Answers) returns (es: seq<Event>)
    requires Settled(s, id, status, pid) && FreshPid(s.w, a)
    requires status == FailedRunning || status == Stopped || status == Running
    requires a.failing == if status == Running then {StartPs} else {}
    ensures OrderlyRun(s, es) && Run(s, es).flights == map[]
    ensures Causes(s, es, id) == [RestartCause(status)]
    ensures RunsTwice(Run(s, es).w, id, pid, a.pid)
  {
    SettledCanFetch(s, id, status, pid);
    es := OneCall(s, id, StartRead(None), a);
    RestartCauses(s, id, a);
    StartsBeside(s.w, id, pid, a);
  }

  /** A start that does not see a live process launches another one beside it. */
  lemma StartsBeside(w: World, id: Uuid, pid: int, a: Answers)
    requires CanFetch(w, id) && FreshPid(w, a) && a.failing <= {StartPs}
    requires Live(w, pid) && w.procs[pid].owner == Sink(id)
    requires var m := w.table[id];
             && m.status != FailedStopping
             && (m.status == Running ==> StartPs in a.failing && m.processId.Some?)
    ensures RunsTwice(Complete(w, id, StartRead(None), a).w, id, pid, a.pid)
  {
    StartEdge(w, id, a);
  }

  lemma RestartCauses(s: Sys, id: Uuid, a: Answers)
    requires s.flights == map[] && CanFetch(s.w, id) && FreshPid(s.w, a) && a.failing <= {StartPs}
    requires var m := s.w.table[id];
             && m.status != FailedStopping && (m.status == Running ==> StartPs in a.failing)
             && (m.status == Running ==> m.processId.Some?)
             && (m.processId.Some? ==> m.processId.value in s.w.procs)
    ensures Causes(s, Call(s.w, Ticket(id, 1), StartRead(None), a), id) ==
            if RecordedLive(s, s.w.table[id]) then [RestartCause(s.w.table[id].status)] else []
  {
    var t := Ticket(id, 1);
    CallCauses(s, t, StartRead(None), a);
    StartReadRest(Next(s, Begin(t, StartRead(None))), t, a);
  }

  lemma StopCauses(s: Sys, id: Uuid, a: Answers)
    requires s.flights == map[] && FreshPid(s.w, a)
    ensures Causes(s, Call(s.w, Ticket(id, 1), StopRead, a), id) == []
  {
    var t := Ticket(id, 1);
    CallCauses(s, t, StopRead, a);
    SafeRest(Next(s, Begin(t, StopRead)), t, a);
  }

  /** A delete before the signal took effect. */
  lemma DeleteRuns(s: Sys, id: Uuid, pid: int, pid': int) returns (es: seq<Event>)
    requires Settled(s, id, Stopped, pid) && FreshPid(s.w, Working(pid'))
    ensures es == Call(s.w, Ticket(id, 1), DeleteRead, Working(pid'))
    ensures OrderlyRun(s, es) && Run(s, es).flights == map[]
    ensures Causes(s, es, id) == [DeletedLive]
    ensures id !in Run(s, es).w.table && pid in Sinks(Run(s, es), id)
  {
    var t, a := Ticket(id, 1), Working(pid');
    es := OneCall(s, id, DeleteRead, a);
    DeleteOfStopped(s.w, id, a);
    CallCauses(s, t, DeleteRead, a);
    DeleteRest(Next(s, Begin(t, DeleteRead)), t, a);
  }

  lemma DeleteRest(s: Sys, t: Ticket, a: Answers)
    requires t in s.flights && s.flights[t].DeleteRead? && a.failing == {}
    requires t.id in s.w.table && s.w.table[t.id].status == Stopped && RecordedLive(s, s.w.table[t.id])
    ensures Rest(s, t, a) == [DeletedLive]
  {
    var m := s.w.table[t.id];
    QuietStep(s, t, a);
    var s1 := Step(s, t, a);
    assert s1 == s.(flights := s.flights[t := DeleteWrite(m)]);
    RestAfterStep(s1, t, a);
    SafeRest(Step(s1, t, a), t, a);
  }

  // -------------------------------------------------------------------------
  // One run for each cause
  // -------------------------------------------------------------------------

  /** A creation whose record is lost, then a start of the row it left. */
  lemma LostRecordRuns(s: Sys, id: Uuid, r: CreateIndexerRequest, pid: int, pid': int) returns (es: seq<Event>)
    requires CanCreate(s, id, r) && TwoPids(s, pid, pid')
    ensures OrderlyRun(s, es) && Run(s, es).flights == map[]
    ensures Causes(s, es, id) == [LostRecord]
    ensures RunsTwice(Run(s, es).w, id, pid, pid')
  {
    var a := Answers({RecordPid}, pid, 1, 0);
    var create := Creation(s, id, r, a);
    ReachCreated(s, id, r, a);
    CreateRest(s, id, r, a);
    LostRecordWorld(s.w, id, r, a);
    var s1 := Run(s, create);
    assert HasScript(s1, id) && Accepted(r);
    var start := StartCreated(s1, id, pid, pid');
    Chain(s, create, start);
    CausesConcat(s, create, start, id);
    es := create + start;
  }

  lemma StartCreated(s: Sys, id: Uuid, pid: int, pid': int) returns (es: seq<Event>)
    requires Ordered(s) && s.flights == map[] && CanFetch(s.w, id) && FreshPid(s.w, Working(pid'))
    requires s.w.table[id].status == Created && s.w.table[id].processId.None?
    requires Live(s.w, pid) && s.w.procs[pid].owner == Sink(id)
    ensures OrderlyRun(s, es) && Run(s, es).flights == map[]
    ensures Causes(s, es, id) == [] && RunsTwice(Run(s, es).w, id, pid, pid')
  {
    var a := Working(pid');
    es := OneCall(s, id, StartRead(None), a);
    StartsBeside(s.w, id, pid, a);
    RestartCauses(s, id, a);
  }

  /** A creation that cannot record its pid leaves the row as inserted, and the process. */
  lemma LostRecordWorld(w: World, id: Uuid, r: CreateIndexerRequest, a: Answers)
    requires Accepted(r) && id !in w.table && FreshPid(w, a) && a.failing == {RecordPid}
    ensures var out := Complete(w, id, CreateInsert(r), a);
            && id in out.w.table && out.w.table[id] == NewRow(id, r)
            && Live(out.w, a.pid) && out.w.procs[a.pid].owner == Sink(id)
  {
    CreateUpToCommit(w, id, r, a);
    var w1, k := AfterCommit(w, id, r), Some(NewRow(id, r));
    CommittedCanFetch(w, id, r);
    UnrecordedStart(w1, id, k, a);
    SpawnedIsLive(w1, id, a.pid);
  }

  lemma CommittedCanFetch(w: World, id: Uuid, r: CreateIndexerRequest)
    requires Accepted(r)
    ensures CanFetch(AfterCommit(w, id, r), id)
  {
  }

  lemma SpawnedIsLive(w: World, id: Uuid, pid: int)
    requires CanFetch(w, id)
    ensures var w' := AfterSpawn(w, id, pid);
            w'.table == w.table && Live(w', pid) && w'.procs[pid].owner == Sink(id)
  {
  }

  lemma UnrecordedStart(w: World, id: Uuid, k: Option<IndexerModel>, a: Answers)
    requires CanFetch(w, id) && w.table[id].status == Created
    requires a.failing == {RecordPid} && SpawnWorks(w, a) && FileWorks(a)
    ensures Complete(w, id, StartRead(k), a).w == AfterSpawn(w, id, a.pid)
  {
    Unfold(w, id, StartRead(k), a);
    UnrecordedFetch(w, id, k, a);
  }

  lemma UnrecordedFetch(w: World, id: Uuid, k: Option<IndexerModel>, a: Answers)
    requires CanFetch(w, id) && a.failing == {RecordPid} && SpawnWorks(w, a) && FileWorks(a)
    ensures Complete(w, id, StartFetch(k, w.table[id]), a).w == AfterSpawn(w, id, a.pid)
  {
    StartUpToFile(w, id, k, a);
    StartFromSpawn(w, id, k, a);
    StartFromRecord(w, id, k, a);
  }

  /** A creation, perhaps a stop, and a second start. */
  lemma RestartRunsFromInit(s: Sys, id: Uuid, r: CreateIndexerRequest, pid: int, pid': int, status: IndexerStatus)
    returns (es: seq<Event>)
    requires CanCreate(s, id, r) && TwoPids(s, pid, pid')
    requires status == FailedRunning || status == Stopped || status == Running
    ensures OrderlyRun(s, es) && Run(s, es).flights == map[]
    ensures Causes(s, es, id) == [RestartCause(status)]
    ensures RunsTwice(Run(s, es).w, id, pid, pid')
  {
    var front := SettleQuietly(s, id, r, pid, pid', status);
    var s1 := Run(s, front);
    var a := Answers(if status == Running then {StartPs} else {}, pid', 1, 0);
    var back := RestartRuns(s1, id, status, pid, a);
    Chain(s, front, back);
    CausesConcat(s, front, back, id);
    es := front + back;
  }

  lemma SettleQuietly(s: Sys, id: Uuid, r: CreateIndexerRequest, pid: int, pid': int, status: IndexerStatus)
    returns (es: seq<Event>)
    requires CanCreate(s, id, r) && TwoPids(s, pid, pid')
    requires status == FailedRunning || status == Stopped || status == Running
    ensures OrderlyRun(s, es) && Causes(s, es, id) == []
    ensures Settled(Run(s, es), id, status, pid) && FreshPid(Run(s, es).w, Working(pid'))
  {
    var reported := if status == FailedRunning then 0 else 1;
    es := ReachSettled(s, id, r, pid, pid', reported);
    CreateRest(s, id, r, Answers({}, pid, reported, 0));
    if status == Stopped {
      var s1 := Run(s, es);
      var stop := StopSettled(s1, id, pid, pid');
      StopCauses(s1, id, Working(pid'));
      Chain(s, es, stop);
      CausesConcat(s, es, stop, id);
      es := es + stop;
    }
  }

  lemma DeleteRunsFromInit(s: Sys, id: Uuid, r: CreateIndexerRequest, pid: int, pid': int) returns (es: seq<Event>)
    requires CanCreate(s, id, r) && TwoPids(s, pid, pid')
    ensures OrderlyRun(s, es) && Run(s, es).flights == map[]
    ensures Causes(s, es, id) == [DeletedLive]
    ensures id !in Run(s, es).w.table && pid in Sinks(Run(s, es), id)
  {
    var front := SettleQuietly(s, id, r, pid, pid', Stopped);
    var back := DeleteRuns(Run(s, front), id, pid, pid');
    Chain(s, front, back);
    CausesConcat(s, front, back, id);
    es := front + back;
  }

  lemma TwoSinks(s: Sys, id: Uuid, pid: int, pid': int)
    requires RunsTwice(s.w, id, pid, pid')
    ensures |Sinks(s, id)| >= 2
  {
    SubsetSize({pid, pid'}, Sinks(s, id));
  }

  /**
   * Every cause, alone, costs a process: some orderly run from the empty service has it as its one cause,
   * and ends with as many live processes as the bound allows.
   */
  lemma EachCauseIsReal(s: Sys, id: Uuid, r: CreateIndexerRequest, pid: int, pid': int, cause: Cause)
    returns (es: seq<Event>)
    requires CanCreate(s, id, r) && TwoPids(s, pid, pid')
    ensures OrderlyRun(s, es) && Run(s, es).flights == map[] && Causes(s, es, id) == [cause]
    ensures |Sinks(Run(s, es), id)| == RecordedCount(Run(s, es), id) + 1
    ensures RecordedCount(Run(s, es), id) == if cause == DeletedLive then 0 else 1
  {
    if cause == DeletedLive {
      es := DeleteRunsFromInit(s, id, r, pid, pid');
      SubsetSize({pid}, Sinks(Run(s, es), id));
    } else {
      match cause {
        case LostRecord => es := LostRecordRuns(s, id, r, pid, pid');
        case RestartFailedRunning => es := RestartRunsFromInit(s, id, r, pid, pid', FailedRunning);
        case RestartStopped => es := RestartRunsFromInit(s, id, r, pid, pid', Stopped);
        case RestartMisread => es := RestartRunsFromInit(s, id, r, pid, pid', Running);
      }
      TwoSinks(Run(s, es), id, pid, pid');
    }
    ProcessesAreAccountedFor(s, es, id);
  }
}
