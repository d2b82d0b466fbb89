/** Handlers run to completion one at a time: what a whole call does, given the answers it gets. */
module Serial {
  import opened Wrappers
  import opened Domain
  import opened Request
  import opened IndexerTypes
  import opened Protocol
  import opened Interleaved
  import opened Orderly
  import opened Pids

  /** The points at which a handler asks the outside world for something. */
  datatype Point =
    | ConnectPool | InsertRow | UploadScript | CommitCreate | QuerySink
    | StartReadRow | StartPs | FetchScript | CreateFile | WriteFile | SpawnSink | RecordPid
    | StopReadRow | StopPs | KillSink | StopWriteRow
    | FailReadRow | FailWriteRow
    | DeleteReadRow | DeleteRow
    | UpdateReadRow | UpdatePs | UpdateWriteRow

  /**
   * The answers of one call: which points fail, the pid a spawn gets, the status the sink reports, and how
   * many bytes a failing write has written.
   */
  datatype Answers = Answers(failing: set<Point>, pid: int, status: int, written: nat) {
    predicate Works(p: Point) {
      p !in failing
    }
  }

  /** Nothing fails. */
  function Working(pid: int): Answers {
    Answers({}, pid, 1, 0)
  }

  function PointOf(pc: Pc): Point
    requires !pc.Done?
  {
    match pc
    case StartRead(_) => StartReadRow
    case StartCheck(_, _) => StartPs
    case StartFetch(_, _) => FetchScript
    case StartCreateFile(_, _, _) => CreateFile
    case StartWriteFile(_, _, _) => WriteFile
    case StartSpawn(_, _) => SpawnSink
    case StartRecord(_, _, _) => RecordPid
    case StopRead => StopReadRow
    case StopCheck(_) => StopPs
    case StopKill(_, _) => KillSink
    case StopWrite(_, _) => StopWriteRow
    case FailRead(_) => FailReadRow
    case FailWrite(_, _) => FailWriteRow
    case DeleteRead => DeleteReadRow
    case DeleteWrite(_) => DeleteRow
    case UpdateRead(_) => UpdateReadRow
    case UpdateCheck(_, _) => UpdatePs
    case UpdateWrite(_, _) => UpdateWriteRow
    case CreateInsert(_) => InsertRow
    case CreateUpload(_) => UploadScript
    case CreateCommit(_) => CommitCreate
    case CreateQuery(_) => QuerySink
  }

  function Reply(a: Answers, pc: Pc): Answer
    requires !pc.Done?
  {
    if pc.CreateInsert? && !a.Works(ConnectPool) then Unconnected
    else if !a.Works(PointOf(pc)) then if pc.StartWriteFile? then Short(a.written) else Fail
    else if pc.StartSpawn? then Spawned(a.pid)
    else if pc.CreateQuery? then Reported(a.status)
    else Ok
  }

  /** How many steps are at most left. */
  function Rank(pc: Pc): nat {
    match pc
    case CreateInsert(_) => 13
    case CreateUpload(_) => 12
    case CreateCommit(_) => 11
    case StartRead(_) => 10
    case StartCheck(_, _) => 9
    case StartFetch(_, _) => 8
    case StartCreateFile(_, _, _) => 7
    case StartWriteFile(_, _, _) => 6
    case StartSpawn(_, _) => 5
    case StartRecord(_, _, _) => 4
    case CreateQuery(_) => 3
    case StopRead => 4
    case StopCheck(_) => 3
    case StopKill(_, _) => 2
    case UpdateRead(_) => 3
    case UpdateCheck(_, _) => 2
    case FailRead(_) => 2
    case DeleteRead => 2
    case Done(_) => 0
    case _ => 1
  }

  lemma RankDecreases(w: World, id: Uuid, pc: Pc, a: Answer)
    requires !pc.Done?
    ensures Rank(Decide(w, id, pc, a).pc) < Rank(pc)
  {
  }

  datatype Outcome = Outcome(w: World, result: Result<Option<IndexerModel>, IndexerError>)

  /** Run a handler from a point to its end, with nobody else acting. */
  function Complete(w: World, id: Uuid, pc: Pc, a: Answers): Outcome
    decreases Rank(pc)
  {
    if pc.Done? then Outcome(w, pc.result)
    else
      var d := Decide(w, id, pc, Reply(a, pc));
      RankDecreases(w, id, pc, Reply(a, pc));
      Complete(Apply(w, id, d.effect), id, d.pc, a)
  }

  // -------------------------------------------------------------------------
  // A completed call is a serial run of the step machine
  // -------------------------------------------------------------------------

  function Steps(w: World, t: Ticket, pc: Pc, a: Answers): seq<Event>
    decreases Rank(pc)
  {
    if pc.Done? then []
    else
      var d := Decide(w, t.id, pc, Reply(a, pc));
      RankDecreases(w, t.id, pc, Reply(a, pc));
      [Move(t, Reply(a, pc))] + Steps(Apply(w, t.id, d.effect), t, d.pc, a)
  }

  function Call(w: World, t: Ticket, call: Pc, a: Answers): seq<Event> {
    [Begin(t, call)] + Steps(w, t, call, a) + [End(t)]
  }

  predicate FreshPid(w: World, a: Answers) {
    0 <= a.pid < PID_LIMIT && a.pid !in w.procs
  }

  /** Until it spawns, a handler leaves the answered pid unused; afterwards it spawns no more. */
  predicate MaySpawn(pc: Pc) {
    IsEarlyCreate(pc) || (IsStartPc(pc) && !pc.StartRecord?)
  }

  lemma SpawnOnce(w: World, id: Uuid, pc: Pc, a: Answer, pid: int)
    requires pid !in w.procs && (a.Spawned? ==> a.newPid == pid)
    ensures var d := Decide(w, id, pc, a);
            MaySpawn(d.pc) ==> MaySpawn(pc) && pid !in Apply(w, id, d.effect).procs
  {
    if MaySpawn(Decide(w, id, pc, a).pc) {
      MaySpawnStill(w, id, pc, a);
      NotYetThere(w, id, Decide(w, id, pc, a).effect, pid);
    }
  }

  lemma MaySpawnStill(w: World, id: Uuid, pc: Pc, a: Answer)
    requires MaySpawn(Decide(w, id, pc, a).pc)
    ensures MaySpawn(pc) && !Decide(w, id, pc, a).effect.SetProc?
  {
  }

  lemma NotYetThere(w: World, id: Uuid, e: Effect, pid: int)
    requires pid !in w.procs && !e.SetProc?
    ensures pid !in Apply(w, id, e).procs
  {
  }

  lemma NoSpawnAgain(w: World, id: Uuid, pc: Pc, a: Answer)
    requires !MaySpawn(pc)
    ensures !MaySpawn(Decide(w, id, pc, a).pc)
  {
  }

  lemma {:induction false} StepsRun(s: Sys, t: Ticket, a: Answers)
    requires t in s.flights
    ensures var es, out := Steps(s.w, t, s.flights[t], a), Complete(s.w, t.id, s.flights[t], a);
            Run(s, es) == Sys(out.w, s.born, s.flights[t := Done(out.result)])
    decreases Rank(s.flights[t])
  {
    var pc := s.flights[t];
    if pc.Done? {
      assert s.flights[t := pc] == s.flights;
    } else {
      var r := Reply(a, pc);
      var d, s' := Decide(s.w, t.id, pc, r), Next(s, Move(t, r));
      RankDecreases(s.w, t.id, pc, r);
      StepsRun(s', t, a);
      var rest := Steps(s'.w, t, d.pc, a);
      assert ([Move(t, r)] + rest)[1..] == rest;
      assert s'.flights[t := Done(Complete(s'.w, t.id, d.pc, a).result)]
          == s.flights[t := Done(Complete(s'.w, t.id, d.pc, a).result)];
    }
  }

  lemma {:induction false} StepsOrderly(s: Sys, t: Ticket, a: Answers)
    requires t in s.flights && (MaySpawn(s.flights[t]) ==> FreshPid(s.w, a))
    ensures OrderlyRun(s, Steps(s.w, t, s.flights[t], a))
    decreases Rank(s.flights[t])
  {
    var pc := s.flights[t];
    if pc.Done? {
    } else {
      var r := Reply(a, pc);
      var d, s' := Decide(s.w, t.id, pc, r), Next(s, Move(t, r));
      RankDecreases(s.w, t.id, pc, r);
      if MaySpawn(pc) {
        SpawnOnce(s.w, t.id, pc, r, a.pid);
      } else {
        NoSpawnAgain(s.w, t.id, pc, r);
      }
      StepsOrderly(s', t, a);
      var rest := Steps(s'.w, t, d.pc, a);
      assert ([Move(t, r)] + rest)[1..] == rest;
    }
  }

  /** A call made when no handler is in flight does what Complete says, as a run of atomic steps. */
  lemma CallRuns(s: Sys, t: Ticket, call: Pc, a: Answers)
    requires s.flights == map[] && Enabled(s, Begin(t, call))
    ensures Run(s, Call(s.w, t, call, a)) ==
            Sys(Complete(s.w, t.id, call, a).w, BornAfter(s, Begin(t, call)), map[])
  {
    var begin, steps := Begin(t, call), Steps(s.w, t, call, a);
    var s1 := Next(s, begin);
    StepsRun(s1, t, a);
    var s2 := Run(s1, steps);
    FirstStep(s2, End(t), []);
    assert [End(t)] + [] == [End(t)];
    RunOfConcat(s1, steps, [End(t)]);
    FirstStep(s, begin, steps + [End(t)]);
    assert Call(s.w, t, call, a) == [begin] + (steps + [End(t)]);
    assert Next(s2, End(t)).flights == map[];
  }

  /** ... and as an orderly one, if the pid a spawn is answered is new. */
  lemma CompleteIsARun(s: Sys, t: Ticket, call: Pc, a: Answers)
    requires s.flights == map[] && Enabled(s, Begin(t, call)) && FreshPid(s.w, a)
    ensures var es := Call(s.w, t, call, a);
            && OrderlyRun(s, es)
            && Run(s, es) == Sys(Complete(s.w, t.id, call, a).w, BornAfter(s, Begin(t, call)), map[])
  {
    var begin, steps := Begin(t, call), Steps(s.w, t, call, a);
    var s1 := Next(s, begin);
    CallRuns(s, t, call, a);
    StepsRun(s1, t, a);
    StepsOrderly(s1, t, a);
    var s2 := Run(s1, steps);
    FirstStep(s2, End(t), []);
    assert [End(t)] + [] == [End(t)];
    OrderlyConcat(s1, steps, [End(t)]);
    FirstStep(s, begin, steps + [End(t)]);
    assert Call(s.w, t, call, a) == [begin] + (steps + [End(t)]);
  }

  // -------------------------------------------------------------------------
  // Starts
  // -------------------------------------------------------------------------

  lemma Unfold(w: World, id: Uuid, pc: Pc, a: Answers)
    requires !pc.Done?
    ensures var d := Decide(w, id, pc, Reply(a, pc));
            Complete(w, id, pc, a) == Complete(Apply(w, id, d.effect), id, d.pc, a)
  {
  }

  /** The row is there, can be started, and its script is stored. */
  predicate CanFetch(w: World, id: Uuid) {
    id in w.table && IsStartable(w.table[id]) && ScriptKey(id) in w.store
  }

  predicate SpawnWorks(w: World, a: Answers) {
    a.Works(SpawnSink) && 0 <= a.pid < PID_LIMIT && !Taken(w, a.pid)
  }

  /** What a start leaves when it goes through: the file, the process and the recorded pid. */
  function AfterFile(w: World, id: Uuid): World
    requires CanFetch(w, id)
  {
    w.(files := w.files[ScriptTmpPath(w.cfg.tmp, id) := w.store[ScriptKey(id)]])
  }

  function AfterSpawn(w: World, id: Uuid, pid: int): World
    requires CanFetch(w, id)
  {
    AfterFile(w, id).(procs := w.procs[pid := Proc(Sink(id), Alive, Some(CommandFor(w.cfg, w.table[id])))])
  }

  function AfterStart(w: World, id: Uuid, pid: int): World
    requires CanFetch(w, id)
  {
    AfterSpawn(w, id, pid).(table := w.table[id := w.table[id].(status := Running, processId := Some(pid))])
  }

  lemma StartFromRecord(w: World, id: Uuid, k: Option<IndexerModel>, a: Answers)
    requires CanFetch(w, id)
    ensures var w1 := AfterSpawn(w, id, a.pid);
            Complete(w1, id, StartRecord(k, w.table[id], a.pid), a) ==
            if a.Works(RecordPid) then Complete(AfterStart(w, id, a.pid), id, Started(k), a)
            else Outcome(w1, Failure(InfraError(DbFailure)))
  {
    Unfold(AfterSpawn(w, id, a.pid), id, StartRecord(k, w.table[id], a.pid), a);
  }

  lemma StartFromSpawn(w: World, id: Uuid, k: Option<IndexerModel>, a: Answers)
    requires CanFetch(w, id)
    ensures var w1 := AfterFile(w, id);
            Complete(w1, id, StartSpawn(k, w.table[id]), a) ==
            if SpawnWorks(w, a) then Complete(AfterSpawn(w, id, a.pid), id, StartRecord(k, w.table[id], a.pid), a)
            else Outcome(w1, Failure(FailedToStartIndexer(id)))
  {
    Unfold(AfterFile(w, id), id, StartSpawn(k, w.table[id]), a);
  }

  /** The file of an id with the first so many bytes of its script. */
  function AfterPart(w: World, id: Uuid, bytes: Bytes): World {
    w.(files := w.files[ScriptTmpPath(w.cfg.tmp, id) := bytes])
  }

  lemma StartFromWrite(w: World, id: Uuid, k: Option<IndexerModel>, a: Answers)
    requires CanFetch(w, id)
    ensures var m, script := w.table[id], w.store[ScriptKey(id)];
            Complete(AfterPart(w, id, []), id, StartWriteFile(k, m, script), a) ==
            if a.Works(WriteFile) then Complete(AfterFile(w, id), id, StartSpawn(k, m), a)
            else Outcome(AfterPart(w, id, Reaching(script, Short(a.written))), Failure(FailedToCreateFile))
  {
    var script, w1 := w.store[ScriptKey(id)], AfterPart(w, id, []);
    var pc := StartWriteFile(k, w.table[id], script);
    Unfold(w1, id, pc, a);
    var bytes := Reaching(script, Reply(a, pc));
    assert Overwrite(FileAt(w1, id), bytes) == bytes;
    assert Apply(w1, id, WriteScript(bytes)) == AfterPart(w, id, bytes);
  }

  lemma StartFromFile(w: World, id: Uuid, k: Option<IndexerModel>, a: Answers)
    requires CanFetch(w, id)
    ensures var m, script := w.table[id], w.store[ScriptKey(id)];
            Complete(w, id, StartCreateFile(k, m, script), a) ==
            if !a.Works(CreateFile) then Outcome(w, Failure(FailedToCreateFile))
            else Complete(AfterPart(w, id, []), id, StartWriteFile(k, m, script), a)
  {
    Unfold(w, id, StartCreateFile(k, w.table[id], w.store[ScriptKey(id)]), a);
  }

  predicate FileWorks(a: Answers) {
    a.Works(FetchScript) && a.Works(CreateFile) && a.Works(WriteFile)
  }

  lemma StartUpToFile(w: World, id: Uuid, k: Option<IndexerModel>, a: Answers)
    requires CanFetch(w, id)
    ensures var out := Complete(w, id, StartFetch(k, w.table[id]), a);
            && (FileWorks(a) ==> out == Complete(AfterFile(w, id), id, StartSpawn(k, w.table[id]), a))
            && (!FileWorks(a) ==> out.result.Failure? && out.w == w.(files := out.w.files))
  {
    Unfold(w, id, StartFetch(k, w.table[id]), a);
    StartFromFile(w, id, k, a);
    StartFromWrite(w, id, k, a);
  }

  predicate FetchWorks(w: World, a: Answers) {
    FileWorks(a) && SpawnWorks(w, a) && a.Works(RecordPid)
  }

  /** From the script fetch on, a start either goes all the way or leaves the table as it was. */
  lemma StartFromFetch(w: World, id: Uuid, k: Option<IndexerModel>, a: Answers)
    requires CanFetch(w, id)
    ensures FetchWorks(w, a) ==>
      Complete(w, id, StartFetch(k, w.table[id]), a) == Complete(AfterStart(w, id, a.pid), id, Started(k), a)
    ensures !FetchWorks(w, a) ==>
      var out := Complete(w, id, StartFetch(k, w.table[id]), a);
      out.result.Failure? && out.w.table == w.table && out.w.store == w.store
  {
    StartUpToFile(w, id, k, a);
    StartFromSpawn(w, id, k, a);
    StartFromRecord(w, id, k, a);
  }

  /** Nothing on the way of a start failed. */
  predicate StartWorks(w: World, a: Answers) {
    a.Works(StartReadRow) && FetchWorks(w, a)
  }

  lemma StartFromIdle(w: World, id: Uuid, k: Option<IndexerModel>, a: Answers)
    requires CanFetch(w, id) && w.table[id].status != Running && w.table[id].status != FailedStopping
    ensures StartWorks(w, a) ==>
      Complete(w, id, StartRead(k), a) == Complete(AfterStart(w, id, a.pid), id, Started(k), a)
    ensures !StartWorks(w, a) ==>
      var out := Complete(w, id, StartRead(k), a);
      out.result.Failure? && out.w.table == w.table && out.w.store == w.store
  {
    if a.Works(StartReadRow) {
      StartPassesGate(w, id, k, a);
      StartFromFetch(w, id, k, a);
    } else {
      Unfold(w, id, StartRead(k), a);
    }
  }

  lemma StartPassesGate(w: World, id: Uuid, k: Option<IndexerModel>, a: Answers)
    requires id in w.table && w.table[id].status != Running && w.table[id].status != FailedStopping
    requires a.Works(StartReadRow)
    ensures Complete(w, id, StartRead(k), a) == Complete(w, id, StartFetch(k, w.table[id]), a)
  {
    Unfold(w, id, StartRead(k), a);
  }

  /** The check answers "running": the pipeline worked and the recorded process is alive. */
  predicate SeenAlive(w: World, m: IndexerModel, a: Answers, check: Point) {
    m.processId.Some? && a.Works(check) && Live(w, m.processId.value)
  }

  /**
   * A start of a Running row, whatever fails: it does nothing if its process is seen alive, and otherwise
   * restarts it, all the way or not at all. A check that fails has not seen anything alive.
   */
  lemma StartFromRunning(w: World, id: Uuid, a: Answers)
    requires CanFetch(w, id) && w.table[id].status == Running && w.table[id].processId.Some?
    ensures var out, seen := Complete(w, id, StartRead(None), a), SeenAlive(w, w.table[id], a, StartPs);
            && (!a.Works(StartReadRow) ==> out == Outcome(w, Failure(InfraError(DbFailure))))
            && (a.Works(StartReadRow) && seen ==> out == Outcome(w, Success(None)))
            && (!seen && StartWorks(w, a) ==> out == Outcome(AfterStart(w, id, a.pid), Success(None)))
            && (!seen && !StartWorks(w, a) ==>
                  out.result.Failure? && out.w.table == w.table && out.w.store == w.store)
  {
    Unfold(w, id, StartRead(None), a);
    if a.Works(StartReadRow) {
      StartFromCheck(w, id, a);
      StartFromFetch(w, id, None, a);
    }
  }

  lemma StartFromCheck(w: World, id: Uuid, a: Answers)
    requires id in w.table && w.table[id].processId.Some?
    ensures var m := w.table[id];
            Complete(w, id, StartCheck(None, m), a) ==
            if SeenAlive(w, m, a, StartPs) then Outcome(w, Success(None)) else Complete(w, id, StartFetch(None, m), a)
  {
    Unfold(w, id, StartCheck(None, w.table[id]), a);
  }

  /** Two live sink processes of one id. */
  predicate RunsTwice(w: World, id: Uuid, pid: int, pid': int) {
    && pid != pid' && Live(w, pid) && Live(w, pid')
    && w.procs[pid].owner == Sink(id) && w.procs[pid'].owner == Sink(id)
  }

  /**
   * A start that goes through leaves a second process beside a healthy one if and only if its liveness
   * check failed to run.
   */
  lemma MisreadStartsTwice(w: World, id: Uuid, a: Answers)
    requires CanFetch(w, id) && w.table[id].status == Running && w.table[id].processId.Some?
    requires StartWorks(w, a) && Live(w, w.table[id].processId.value)
    requires w.procs[w.table[id].processId.value].owner == Sink(id)
    ensures RunsTwice(Complete(w, id, StartRead(None), a).w, id, w.table[id].processId.value, a.pid)
            <==> !a.Works(StartPs)
  {
    StartFromRunning(w, id, a);
  }

  // -------------------------------------------------------------------------
  // Creation
  // -------------------------------------------------------------------------

  predicate CreationWorks(a: Answers) {
    a.Works(ConnectPool) && a.Works(InsertRow) && a.Works(UploadScript) && a.Works(CommitCreate)
  }

  function AfterCommit(w: World, id: Uuid, r: CreateIndexerRequest): World {
    w.(store := w.store[ScriptKey(id) := r.data], table := w.table[id := NewRow(id, r)])
  }

  lemma CreateUpToCommit(w: World, id: Uuid, r: CreateIndexerRequest, a: Answers)
    ensures CreationWorks(a) ==>
      Complete(w, id, CreateInsert(r), a) == Complete(AfterCommit(w, id, r), id, StartRead(Some(NewRow(id, r))), a)
    ensures !CreationWorks(a) ==>
      Complete(w, id, CreateInsert(r), a).result.Failure? && Complete(w, id, CreateInsert(r), a).w.table == w.table
  {
    Unfold(w, id, CreateInsert(r), a);
    if a.Works(ConnectPool) && a.Works(InsertRow) {
      Unfold(w, id, CreateUpload(r), a);
      if a.Works(UploadScript) {
        Unfold(w.(store := w.store[ScriptKey(id) := r.data]), id, CreateCommit(r), a);
      }
    }
  }

  predicate FinishWorks(a: Answers) {
    a.Works(QuerySink) && (a.status != 1 ==> a.Works(FailReadRow) && a.Works(FailWriteRow))
  }

  /** After the start: the sink's own status decides between Running and FailedRunning. */
  lemma CreateFromQuery(w: World, id: Uuid, created: IndexerModel, a: Answers)
    requires id in w.table && w.table[id].status == Running && created.statusServerPort.Some?
    ensures var out := Complete(w, id, CreateQuery(created), a);
            && (FinishWorks(a) ==>
                  && out.result == Success(Some(created))
                  && out.w == if a.status == 1 then w
                              else w.(table := w.table[id := w.table[id].(status := FailedRunning)]))
            && (!FinishWorks(a) ==> out.result.Failure? && out.w == w)
  {
    Unfold(w, id, CreateQuery(created), a);
    if a.Works(QuerySink) && a.status != 1 {
      Unfold(w, id, FailRead(Some(created)), a);
      if a.Works(FailReadRow) {
        Unfold(w, id, FailWrite(Some(created), w.table[id]), a);
      }
    }
  }

  /**
   * A serial creation returns Ok exactly when no step failed. Then the row has the spawned pid and is
   * Running if the sink reported 1, FailedRunning otherwise; the reply is the row as inserted. An error
   * leaves no row, or one with its script stored that is Created or Running.
   */
  lemma CreateOutcome(w: World, id: Uuid, r: CreateIndexerRequest, a: Answers)
    requires Accepted(r) && id !in w.table
    ensures var out := Complete(w, id, CreateInsert(r), a);
            && (out.result.Success? <==> CreationWorks(a) && StartWorks(w, a) && FinishWorks(a))
            && (out.result.Success? ==>
                  && out.result.value == Some(NewRow(id, r))
                  && id in out.w.table
                  && out.w.table[id] == NewRow(id, r).(
                                        processId := Some(a.pid),
                                        status := if a.status == 1 then Running else FailedRunning)
                  && Live(out.w, a.pid) && out.w.procs[a.pid].owner == Sink(id))
            && (out.result.Failure? && id in out.w.table ==>
                  && ScriptKey(id) in out.w.store && out.w.store[ScriptKey(id)] == r.data
                  && (out.w.table[id].status == Created || out.w.table[id].status == Running))
  {
    CreateUpToCommit(w, id, r, a);
    if CreationWorks(a) {
      var w1, created := AfterCommit(w, id, r), NewRow(id, r);
      assert IsStartable(created);
      StartFromIdle(w1, id, Some(created), a);
      if StartWorks(w, a) {
        CreateFromQuery(AfterStart(w1, id, a.pid), id, created, a);
      }
    }
  }

  // -------------------------------------------------------------------------
  // Stops
  // -------------------------------------------------------------------------

  predicate SeenRunning(w: World, m: IndexerModel, a: Answers) {
    SeenAlive(w, m, a, StopPs)
  }

  /**
   * A stop of a Running row records Stopped exactly when the check said "not running" or the kill
   * command succeeded, and FailedStopping otherwise.
   */
  lemma StopClassification(w: World, id: Uuid, a: Answers)
    requires id in w.table && w.table[id].status == Running && w.table[id].processId.Some?
    requires a.Works(StopReadRow) && a.Works(StopWriteRow)
    ensures var out, m := Complete(w, id, StopRead, a), w.table[id];
            && out.result == Success(None)
            && out.w.table == w.table[id := m.(status := if !SeenRunning(w, m, a) || a.Works(KillSink) then Stopped
                                                         else FailedStopping)]
            && (SeenRunning(w, m, a) && a.Works(KillSink) ==>
                  out.w.procs == w.procs[m.processId.value := Signal(w.procs[m.processId.value])])
            && (!(SeenRunning(w, m, a) && a.Works(KillSink)) ==> out.w.procs == w.procs)
  {
    var m := w.table[id];
    var pid := m.processId.value;
    StopStatus(m.id, pid);
    Unfold(w, id, StopRead, a);
    Unfold(w, id, StopCheck(m), a);
    if SeenRunning(w, m, a) {
      StopFromKill(w, id, m, pid, a);
    } else {
      StopFromWrite(w, id, m, Stopped, a);
    }
  }

  lemma StopFromWrite(w: World, id: Uuid, m: IndexerModel, target: IndexerStatus, a: Answers)
    requires id in w.table && a.Works(StopWriteRow)
    ensures Complete(w, id, StopWrite(m, target), a) ==
            Outcome(w.(table := w.table[id := w.table[id].(status := target)]), Success(None))
  {
    Unfold(w, id, StopWrite(m, target), a);
  }

  lemma StopFromKill(w: World, id: Uuid, m: IndexerModel, pid: int, a: Answers)
    requires id in w.table && Live(w, pid) && a.Works(StopWriteRow)
    ensures var w1 := if a.Works(KillSink) then w.(procs := w.procs[pid := Signal(w.procs[pid])]) else w;
            var target := if a.Works(KillSink) then Stopped else FailedStopping;
            Complete(w, id, StopKill(m, pid), a) ==
            Outcome(w1.(table := w.table[id := w.table[id].(status := target)]), Success(None))
  {
    KillGoes(w, id, m, pid, a);
    Unfold(w, id, StopKill(m, pid), a);
    if a.Works(KillSink) {
      StopFromWrite(w.(procs := w.procs[pid := Signal(w.procs[pid])]), id, m, Stopped, a);
    } else {
      StopFromWrite(w, id, m, FailedStopping, a);
    }
  }

  lemma KillGoes(w: World, id: Uuid, m: IndexerModel, pid: int, a: Answers)
    requires Live(w, pid)
    ensures Decide(w, id, StopKill(m, pid), Reply(a, StopKill(m, pid))) ==
            if a.Works(KillSink) then Decision(SetProc(pid, Signal(w.procs[pid])), StopWrite(m, Stopped))
            else Goes(StopWrite(m, FailedStopping))
  {
    StopStatus(id, pid);
  }

  /**
   * The state update succeeds exactly on rows that are Running or already at the target, whose process
   * is not seen alive; it then writes the target and nothing else, over a live process if its check failed.
   */
  lemma UpdateOutcome(w: World, id: Uuid, target: IndexerStatus, a: Answers)
    requires id in w.table && (target == Stopped || target == FailedStopping)
    requires w.table[id].processId.Some?
    requires a.Works(UpdateReadRow) && a.Works(UpdateWriteRow)
    ensures var out, m := Complete(w, id, UpdateRead(target), a), w.table[id];
            && (out.result.Success? <==>
                  (m.status == Running || m.status == target) && !SeenAlive(w, m, a, UpdatePs))
            && (out.result.Success? ==> out.w == w.(table := w.table[id := m.(status := target)]))
            && (out.result.Failure? ==> out.w == w)
  {
    var m := w.table[id];
    Unfold(w, id, UpdateRead(target), a);
    if m.status == Running || m.status == target {
      UpdateFromCheck(w, id, target, a);
    }
  }

  lemma UpdateFromCheck(w: World, id: Uuid, target: IndexerStatus, a: Answers)
    requires id in w.table && w.table[id].processId.Some? && a.Works(UpdateWriteRow)
    ensures var m := w.table[id];
            Complete(w, id, UpdateCheck(m, target), a) ==
            if SeenAlive(w, m, a, UpdatePs) then Outcome(w, Failure(InternalServerError(STILL_RUNNING)))
            else Outcome(w.(table := w.table[id := m.(status := target)]), Success(None))
  {
    var m := w.table[id];
    Unfold(w, id, UpdateCheck(m, target), a);
    if !SeenAlive(w, m, a, UpdatePs) {
      Unfold(w, id, UpdateWrite(m, target), a);
    }
  }

  /** An update of a row whose process is alive writes the target over it if and only if the check failed. */
  lemma UpdateMisreads(w: World, id: Uuid, target: IndexerStatus, a: Answers)
    requires id in w.table && w.table[id].status == Running && (target == Stopped || target == FailedStopping)
    requires w.table[id].processId.Some? && Live(w, w.table[id].processId.value)
    requires a.Works(UpdateReadRow) && a.Works(UpdateWriteRow)
    ensures var out := Complete(w, id, UpdateRead(target), a);
            && id in out.w.table && (out.w.table[id].status == target <==> !a.Works(UpdatePs))
            && Live(out.w, w.table[id].processId.value) && out.w.procs == w.procs
  {
    UpdateOutcome(w, id, target, a);
  }

  /**
   * A stop of a row whose process runs on records Stopped without having signalled it if and only if the
   * check failed.
   */
  lemma StopMisreads(w: World, id: Uuid, a: Answers)
    requires id in w.table && w.table[id].status == Running && w.table[id].processId.Some?
    requires w.table[id].processId.value in w.procs && w.procs[w.table[id].processId.value].state == Alive
    requires a.Works(StopReadRow) && a.Works(StopWriteRow)
    ensures var out, pid := Complete(w, id, StopRead, a), w.table[id].processId.value;
            && id in out.w.table && pid in out.w.procs
            && (out.w.table[id].status == Stopped && out.w.procs[pid].state == Alive <==> !a.Works(StopPs))
  {
    StopClassification(w, id, a);
  }

  /** Every call on an absent id reports NotFound and changes nothing. */
  lemma AbsentIdsAreNotFound(w: World, id: Uuid, call: Pc, a: Answers)
    requires id !in w.table && IsCall(call) && !call.CreateInsert? && a.Works(PointOf(call))
    ensures Complete(w, id, call, a) == Outcome(w, Failure(InfraError(NotFound)))
  {
    Unfold(w, id, call, a);
  }

  lemma DeleteOfStopped(w: World, id: Uuid, a: Answers)
    requires id in w.table && w.table[id].status == Stopped && a.Works(DeleteReadRow) && a.Works(DeleteRow)
    ensures Complete(w, id, DeleteRead, a) == Outcome(w.(table := w.table - {id}), Success(None))
  {
    Unfold(w, id, DeleteRead, a);
    Unfold(w, id, DeleteWrite(w.table[id]), a);
  }

  lemma FailOfRunning(w: World, id: Uuid, a: Answers)
    requires id in w.table && w.table[id].status == Running && a.Works(FailReadRow) && a.Works(FailWriteRow)
    ensures Complete(w, id, FailRead(None), a) ==
            Outcome(w.(table := w.table[id := w.table[id].(status := FailedRunning)]), Success(None))
  {
    Unfold(w, id, FailRead(None), a);
    Unfold(w, id, FailWrite(None, w.table[id]), a);
  }

  // -------------------------------------------------------------------------
  // Every edge is taken, and every status but FailedStopping leads to deletion
  // -------------------------------------------------------------------------

  lemma StartEdge(w: World, id: Uuid, a: Answers)
    requires CanFetch(w, id) && StartWorks(w, a) && w.table[id].status != FailedStopping
    requires w.table[id].status == Running ==>
               w.table[id].processId.Some? && !SeenAlive(w, w.table[id], a, StartPs)
    ensures Complete(w, id, StartRead(None), a) == Outcome(AfterStart(w, id, a.pid), Success(None))
  {
    if w.table[id].status == Running {
      StartFromRunning(w, id, a);
    } else {
      StartFromIdle(w, id, None, a);
    }
  }

  /** The calls the routes make. */
  predicate IsRouted(call: Pc) {
    call == StartRead(None) || call == StopRead || call == DeleteRead || call.CreateInsert?
  }

  /**
   * Each edge of the status relation is taken, under the stated process state: the one to FailedRunning by a
   * creation that asks its sink, any other by a whole call.
   */
  lemma EdgeIsTaken(w: World, id: Uuid, to: IndexerStatus, pid: int) returns (pc: Pc, a: Answers)
    requires CanFetch(w, id) && Edge(w.table[id].status, to)
    requires w.table[id].status == Running ==> w.table[id].processId.Some?
    requires 0 <= pid < PID_LIMIT && !Taken(w, pid)
    requires w.table[id].status == Running && to == Running ==> !Live(w, w.table[id].processId.value)
    requires to == FailedStopping ==> Live(w, w.table[id].processId.value)
    ensures if to == FailedRunning then pc.CreateQuery? else IsRouted(pc)
    ensures id in Complete(w, id, pc, a).w.table && Complete(w, id, pc, a).w.table[id].status == to
  {
    a := Working(pid);
    match to {
      case Running =>
        pc := StartRead(None);
        StartEdge(w, id, a);
      case Stopped =>
        pc := StopRead;
        StopClassification(w, id, a);
      case FailedStopping =>
        pc := StopRead;
        a := Answers({KillSink}, pid, 1, 0);
        StopClassification(w, id, a);
      case FailedRunning =>
        pc := CreateQuery(w.table[id].(statusServerPort := Some(DEFAULT_STATUS_PORT)));
        a := Answers({}, pid, 0, 0);
        CreateFromQuery(w, id, pc.created, a);
    }
  }

  /**
   * A creation whose steps all work has a Running row when it asks its sink, and moves it to FailedRunning
   * from there if and only if the sink does not report 1.
   */
  lemma CreationAsksWhenRunning(w: World, id: Uuid, r: CreateIndexerRequest, a: Answers)
    requires Accepted(r) && id !in w.table && CreationWorks(a) && StartWorks(w, a) && FinishWorks(a)
    ensures var w1, created := AfterStart(AfterCommit(w, id, r), id, a.pid), NewRow(id, r);
            && w1.table[id].status == Running
            && Complete(w, id, CreateInsert(r), a) == Complete(w1, id, CreateQuery(created), a)
            && id in Complete(w1, id, CreateQuery(created), a).w.table
            && (Complete(w1, id, CreateQuery(created), a).w.table[id].status == FailedRunning <==> a.status != 1)
  {
    var w0, created := AfterCommit(w, id, r), NewRow(id, r);
    assert IsStartable(created);
    CreateUpToCommit(w, id, r, a);
    StartFromIdle(w0, id, Some(created), a);
    CreateFromQuery(AfterStart(w0, id, a.pid), id, created, a);
  }

  lemma OneCall(s: Sys, id: Uuid, call: Pc, a: Answers) returns (es: seq<Event>)
    requires Ordered(s) && s.flights == map[] && IsCall(call) && !call.CreateInsert? && FreshPid(s.w, a)
    ensures es == Call(s.w, Ticket(id, 1), call, a)
    ensures OrderlyRun(s, es) && Run(s, es) == Sys(Complete(s.w, id, call, a).w, s.born, map[])
    ensures Ordered(Run(s, es))
  {
    es := Call(s.w, Ticket(id, 1), call, a);
    CompleteIsARun(s, Ticket(id, 1), call, a);
    RunOrdered(s, es);
  }

  lemma Chain(s: Sys, es: seq<Event>, fs: seq<Event>)
    requires OrderlyRun(s, es) && OrderlyRun(Run(s, es), fs)
    ensures OrderlyRun(s, es + fs) && Run(s, es + fs) == Run(Run(s, es), fs)
  {
    RunOfConcat(s, es, fs);
    OrderlyConcat(s, es, fs);
  }

  lemma FromStopped(s: Sys, id: Uuid, a: Answers) returns (es: seq<Event>)
    requires Ordered(s) && s.flights == map[] && FreshPid(s.w, a) && a.failing == {}
    requires id in s.w.table && s.w.table[id].status == Stopped
    ensures OrderlyRun(s, es) && id !in Run(s, es).w.table
  {
    DeleteOfStopped(s.w, id, a);
    es := OneCall(s, id, DeleteRead, a);
  }

  lemma FromRunning(s: Sys, id: Uuid, a: Answers) returns (es: seq<Event>)
    requires Ordered(s) && s.flights == map[] && FreshPid(s.w, a) && a.failing == {}
    requires id in s.w.table && s.w.table[id].status == Running
    ensures OrderlyRun(s, es) && id !in Run(s, es).w.table
  {
    assert RowOk(s.w.table[id], id, s.born[id]);
    assert OwnedPid(s, id, s.w.table[id].processId.value);
    StopClassification(s.w, id, a);
    var stop := OneCall(s, id, StopRead, a);
    var rest := FromStopped(Run(s, stop), id, a);
    Chain(s, stop, rest);
    es := stop + rest;
  }

  lemma FromIdle(s: Sys, id: Uuid, a: Answers, a': Answers) returns (es: seq<Event>)
    requires Ordered(s) && s.flights == map[] && a.failing == {} && a'.failing == {}
    requires FreshPid(s.w, a) && FreshPid(s.w, a') && a.pid != a'.pid
    requires id in s.w.table && (s.w.table[id].status == Created || s.w.table[id].status == FailedRunning)
    ensures OrderlyRun(s, es) && id !in Run(s, es).w.table
  {
    assert HasScript(s, id) && Accepted(s.born[id]);
    assert StartWorks(s.w, a);
    StartFromIdle(s.w, id, None, a);
    var start := OneCall(s, id, StartRead(None), a);
    var rest := FromRunning(Run(s, start), id, a');
    Chain(s, start, rest);
    es := start + rest;
  }

  /**
   * From every status but FailedStopping, calls whose steps succeed lead to deletion; with the trap,
   * FailedStopping is the only status they do not leave. `pid` and `pid'` are unused.
   */
  lemma OtherStatusesCanBeDeleted(s: Sys, id: Uuid, pid: int, pid': int) returns (es: seq<Event>)
    requires Ordered(s) && s.flights == map[] && id in s.w.table && s.w.table[id].status != FailedStopping
    requires pid != pid' && FreshPid(s.w, Working(pid)) && FreshPid(s.w, Working(pid'))
    ensures OrderlyRun(s, es) && id !in Run(s, es).w.table
  {
    var a, a' := Working(pid), Working(pid');
    if s.w.table[id].status == Running {
      es := FromRunning(s, id, a);
    } else if s.w.table[id].status == Stopped {
      es := FromStopped(s, id, a);
    } else {
      es := FromIdle(s, id, a, a');
    }
  }
}
