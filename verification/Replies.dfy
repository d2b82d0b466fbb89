/**
 * What each call replies and leaves behind when it is made alone, for every row and every answer of the
 * outside world, written out case by case and independently of the programs of atomic steps.
 */
module Replies {
  import opened Wrappers
  import opened Domain
  import opened Request
  import opened IndexerTypes
  import opened Protocol
  import opened Serial

  // -------------------------------------------------------------------------
  // The cases
  // -------------------------------------------------------------------------

  /** Alive, and not a zombie. */
  predicate IsUp(w: World, pid: int) {
    pid in w.procs && (w.procs[pid].state == Alive || w.procs[pid].state == Signalled)
  }

  predicate Sees(w: World, m: IndexerModel, works: bool) {
    m.processId.Some? && works && IsUp(w, m.processId.value)
  }

  predicate Refuses(w: World, out: Outcome, error: IndexerError) {
    out == Outcome(w, Failure(error))
  }

  predicate Writes(w: World, id: Uuid, status: IndexerStatus, works: bool, out: Outcome)
    requires id in w.table
  {
    if !works then Refuses(w, out, InfraError(DbFailure))
    else out == Outcome(w.(table := w.table[id := w.table[id].(status := status)]), Success(None))
  }

  predicate IsNewSink(p: Proc, cfg: Config, id: Uuid, m: IndexerModel) {
    p.owner == Sink(id) && p.state == Alive && p.command.Some? && RunsRow(cfg, m, p.command.value)
  }

  predicate SpawnReplies(w: World, id: Uuid, m: IndexerModel, a: Answers, out: Outcome)
    requires id in w.table
  {
    if (if m.indexerType == Postgres then m.tableName.None? else m.targetUrl.None?) then
      Refuses(w, out, Panicked(KindField))
    else if !a.Works(SpawnSink) || a.pid < 0 || a.pid >= 4_294_967_296
            || (a.pid in w.procs && w.procs[a.pid].state != Gone) then
      Refuses(w, out, FailedToStartIndexer(id))
    else
      && a.pid in out.w.procs && IsNewSink(out.w.procs[a.pid], w.cfg, id, m)
      && var spawned := w.(procs := w.procs[a.pid := out.w.procs[a.pid]]);
         if !a.Works(RecordPid) then Refuses(spawned, out, InfraError(DbFailure))
         else
           var row := w.table[id].(status := Running, processId := Some(a.pid));
           out == Outcome(spawned.(table := w.table[id := row]), Success(None))
  }

  predicate LaunchReplies(w: World, id: Uuid, m: IndexerModel, a: Answers, out: Outcome)
    requires id in w.table
  {
    var key, path := ScriptKey(id), ScriptTmpPath(w.cfg.tmp, id);
    if !a.Works(FetchScript) || key !in w.store then Refuses(w, out, FailedToGetFromStore)
    else if !a.Works(CreateFile) then Refuses(w, out, FailedToCreateFile)
    else if !a.Works(WriteFile) then
      var part := if a.written < |w.store[key]| then w.store[key][..a.written] else [];
      Refuses(w.(files := w.files[path := part]), out, FailedToCreateFile)
    else SpawnReplies(w.(files := w.files[path := w.store[key]]), id, m, a, out)
  }

  predicate StartReplies(w: World, id: Uuid, a: Answers, out: Outcome) {
    if !a.Works(StartReadRow) then Refuses(w, out, InfraError(DbFailure))
    else if id !in w.table then Refuses(w, out, InfraError(NotFound))
    else
      var m := w.table[id];
      if m.status == FailedStopping then Refuses(w, out, InvalidIndexerStatus(FailedStopping))
      else if m.status == Running && m.processId.None? then
        Refuses(w, out, InternalServerError("Cannot check running status for indexer without process id"))
      else if m.status == Running && Sees(w, m, a.Works(StartPs)) then out == Outcome(w, Success(None))
      else LaunchReplies(w, id, m, a, out)
  }

  predicate StopReplies(w: World, id: Uuid, a: Answers, out: Outcome) {
    if !a.Works(StopReadRow) then Refuses(w, out, InfraError(DbFailure))
    else if id !in w.table then Refuses(w, out, InfraError(NotFound))
    else
      var m := w.table[id];
      if m.status != Running then Refuses(w, out, InvalidIndexerStatus(m.status))
      else if m.processId.None? then Writes(w, id, FailedStopping, a.Works(StopWriteRow), out)
      else if !Sees(w, m, a.Works(StopPs)) then Writes(w, id, Stopped, a.Works(StopWriteRow), out)
      else if !a.Works(KillSink) then Writes(w, id, FailedStopping, a.Works(StopWriteRow), out)
      else
        var pid := m.processId.value;
        Writes(w.(procs := w.procs[pid := w.procs[pid].(state := Signalled)]), id, Stopped, a.Works(StopWriteRow), out)
  }

  predicate FailReplies(w: World, id: Uuid, a: Answers, out: Outcome) {
    if !a.Works(FailReadRow) then Refuses(w, out, InfraError(DbFailure))
    else if id !in w.table then Refuses(w, out, InfraError(NotFound))
    else if w.table[id].status != Running then Refuses(w, out, InvalidIndexerStatus(w.table[id].status))
    else Writes(w, id, FailedRunning, a.Works(FailWriteRow), out)
  }

  predicate DeleteReplies(w: World, id: Uuid, a: Answers, out: Outcome) {
    if !a.Works(DeleteReadRow) then Refuses(w, out, InfraError(DbFailure))
    else if id !in w.table then Refuses(w, out, InfraError(NotFound))
    else if w.table[id].status != Stopped then Refuses(w, out, InvalidIndexerStatus(w.table[id].status))
    else if !a.Works(DeleteRow) then Refuses(w, out, InfraError(DbFailure))
    else out == Outcome(w.(table := w.table - {id}), Success(None))
  }

  predicate UpdateReplies(w: World, id: Uuid, target: IndexerStatus, a: Answers, out: Outcome) {
    if !a.Works(UpdateReadRow) then Refuses(w, out, InfraError(DbFailure))
    else if id !in w.table then Refuses(w, out, InfraError(NotFound))
    else
      var m := w.table[id];
      if m.status == Created || m.status == FailedRunning then Refuses(w, out, InvalidIndexerStatus(m.status))
      else if m.status != Running && m.status != target then
        Refuses(w, out, InternalServerError(
          "Cannot move from " + StatusText(m.status) + " to " + StatusText(target) + " for indexer " + UuidText(id)))
      else if m.processId.None? then
        Refuses(w, out, InternalServerError("Cannot check running status for indexer without process id"))
      else if Sees(w, m, a.Works(UpdatePs)) then
        Refuses(w, out, InternalServerError("Cannot set indexer to stopped if it's still running"))
      else Writes(w, id, target, a.Works(UpdateWriteRow), out)
  }

  /** From the end of its start on, a creation asks the sink, and fails the row of one that does not report 1. */
  ghost predicate FinishReplies(row: IndexerModel, started: Outcome, id: Uuid, a: Answers, out: Outcome) {
    if started.result.Failure? then out == started
    else if !a.Works(QuerySink) then Refuses(started.w, out, StatusServerUnavailable)
    else if a.status == 1 then out == Outcome(started.w, Success(Some(row)))
    else
      exists failed ::
        && FailReplies(started.w, id, a, failed)
        && out == Outcome(failed.w, if failed.result.Success? then Success(Some(row)) else failed.result)
  }

  ghost predicate CreateReplies(w: World, id: Uuid, r: CreateIndexerRequest, a: Answers, out: Outcome) {
    if !a.Works(ConnectPool) then Refuses(w, out, Panicked(PoolConnection))
    else if !a.Works(InsertRow) then Refuses(w, out, FailedToQueryDb)
    else if !a.Works(UploadScript) then Refuses(w, out, FailedToUploadToStore)
    else
      var stored := w.(store := w.store[ScriptKey(id) := r.data]);
      if !a.Works(CommitCreate) then Refuses(stored, out, FailedToQueryDb)
      else
        exists row, started ::
          && IsFreshRow(row, id, r)
          && StartReplies(stored.(table := w.table[id := row]), id, a, started)
          && FinishReplies(row, started, id, a, out)
  }

  /** A creation from a form: what the form says, or why it cannot be used. */
  ghost predicate FormReplies(
      w: World, id: Uuid, fields: seq<Field>, port: Option<int>, a: Answers, out: Outcome)
  {
    if IsComplete(fields) then
      exists r :: Describes(fields, port, r) && CreateReplies(w, id, r, a, out)
    else
      || (Refuses(w, out, FailedToBuildCreateIndexerRequest)
          && forall i | 0 <= i < |fields| :: IsAcceptable(fields[i]))
      || exists i: nat, e ::
           IsFirstRefused(fields, i) && IsReplyTo(fields[i], e) && Refuses(w, out, e)
  }

  // -------------------------------------------------------------------------
  // The step programs do just that
  // -------------------------------------------------------------------------

  lemma RecordMeets(w: World, id: Uuid, m: IndexerModel, a: Answers)
    requires id in w.table
    ensures Complete(w, id, StartRecord(None, m, a.pid), a) ==
            if !a.Works(RecordPid) then Outcome(w, Failure(InfraError(DbFailure)))
            else Outcome(
              w.(table := w.table[id := w.table[id].(status := Running, processId := Some(a.pid))]), Success(None))
  {
    Unfold(w, id, StartRecord(None, m, a.pid), a);
  }

  lemma SpawnMeets(w: World, id: Uuid, m: IndexerModel, a: Answers)
    requires id in w.table
    ensures SpawnReplies(w, id, m, a, Complete(w, id, StartSpawn(None, m), a))
  {
    SpawnGoes(w, id, m, a);
    if IsStartable(m) && SpawnWorks(w, a) {
      CommandRunsRow(w.cfg, m);
      var p := Proc(Sink(id), Alive, Some(CommandFor(w.cfg, m)));
      RecordMeets(w.(procs := w.procs[a.pid := p]), id, m, a);
    }
  }

  lemma SpawnGoes(w: World, id: Uuid, m: IndexerModel, a: Answers)
    ensures Complete(w, id, StartSpawn(None, m), a) ==
            if !IsStartable(m) then Outcome(w, Failure(Panicked(KindField)))
            else if !SpawnWorks(w, a) then Outcome(w, Failure(FailedToStartIndexer(id)))
            else
              var p := Proc(Sink(id), Alive, Some(CommandFor(w.cfg, m)));
              Complete(w.(procs := w.procs[a.pid := p]), id, StartRecord(None, m, a.pid), a)
  {
    Unfold(w, id, StartSpawn(None, m), a);
  }

  lemma WriteMeets(w: World, id: Uuid, m: IndexerModel, script: Bytes, a: Answers)
    requires id in w.table
    ensures var path, out := ScriptTmpPath(w.cfg.tmp, id), Complete(w, id, StartCreateFile(None, m, script), a);
            if !a.Works(CreateFile) then Refuses(w, out, FailedToCreateFile)
            else if !a.Works(WriteFile) then
              var part := if a.written < |script| then script[..a.written] else [];
              Refuses(w.(files := w.files[path := part]), out, FailedToCreateFile)
            else out == Complete(w.(files := w.files[path := script]), id, StartSpawn(None, m), a)
  {
    Unfold(w, id, StartCreateFile(None, m, script), a);
    if a.Works(CreateFile) {
      WrittenMeets(w, id, m, script, a);
    }
  }

  lemma WrittenMeets(w: World, id: Uuid, m: IndexerModel, script: Bytes, a: Answers)
    ensures var path := ScriptTmpPath(w.cfg.tmp, id);
            Complete(AfterPart(w, id, []), id, StartWriteFile(None, m, script), a) ==
            if !a.Works(WriteFile) then
              var part := if a.written < |script| then script[..a.written] else [];
              Outcome(w.(files := w.files[path := part]), Failure(FailedToCreateFile))
            else Complete(w.(files := w.files[path := script]), id, StartSpawn(None, m), a)
  {
    var w1, pc := AfterPart(w, id, []), StartWriteFile(None, m, script);
    Unfold(w1, id, pc, a);
    var bytes := Reaching(script, Reply(a, pc));
    assert Overwrite(FileAt(w1, id), bytes) == bytes;
    assert Apply(w1, id, WriteScript(bytes)) == AfterPart(w, id, bytes);
  }

  lemma LaunchMeets(w: World, id: Uuid, m: IndexerModel, a: Answers)
    requires id in w.table
    ensures LaunchReplies(w, id, m, a, Complete(w, id, StartFetch(None, m), a))
  {
    Unfold(w, id, StartFetch(None, m), a);
    if a.Works(FetchScript) && ScriptKey(id) in w.store {
      var script := w.store[ScriptKey(id)];
      WriteMeets(w, id, m, script, a);
      SpawnMeets(w.(files := w.files[ScriptTmpPath(w.cfg.tmp, id) := script]), id, m, a);
    }
  }

  lemma CheckMeets(w: World, id: Uuid, m: IndexerModel, a: Answers)
    requires id in w.table
    ensures var out := Complete(w, id, StartCheck(None, m), a);
            if m.processId.None? then
              Refuses(w, out, InternalServerError("Cannot check running status for indexer without process id"))
            else if Sees(w, m, a.Works(StartPs)) then out == Outcome(w, Success(None))
            else out == Complete(w, id, StartFetch(None, m), a)
  {
    Unfold(w, id, StartCheck(None, m), a);
    CheckText();
  }

  lemma CheckText()
    ensures CHECK_WITHOUT_PID == "Cannot check running status for indexer without process id"
  {
  }

  /** A start, case by case. */
  lemma StartMeets(w: World, id: Uuid, a: Answers)
    ensures StartReplies(w, id, a, Complete(w, id, StartRead(None), a))
  {
    ReadMeets(w, id, a);
    if a.Works(StartReadRow) && id in w.table {
      CheckMeets(w, id, w.table[id], a);
      LaunchMeets(w, id, w.table[id], a);
    }
  }

  lemma ReadMeets(w: World, id: Uuid, a: Answers)
    ensures Complete(w, id, StartRead(None), a) ==
            if !a.Works(StartReadRow) then Outcome(w, Failure(InfraError(DbFailure)))
            else if id !in w.table then Outcome(w, Failure(InfraError(NotFound)))
            else if w.table[id].status == FailedStopping then
              Outcome(w, Failure(InvalidIndexerStatus(FailedStopping)))
            else if w.table[id].status == Running then Complete(w, id, StartCheck(None, w.table[id]), a)
            else Complete(w, id, StartFetch(None, w.table[id]), a)
  {
    Unfold(w, id, StartRead(None), a);
  }

  lemma StopWriteMeets(w: World, id: Uuid, m: IndexerModel, target: IndexerStatus, a: Answers)
    requires id in w.table
    ensures Writes(w, id, target, a.Works(StopWriteRow), Complete(w, id, StopWrite(m, target), a))
  {
    Unfold(w, id, StopWrite(m, target), a);
  }

  lemma KillMeets(w: World, id: Uuid, m: IndexerModel, pid: int, a: Answers)
    requires id in w.table && IsUp(w, pid)
    ensures Complete(w, id, StopKill(m, pid), a) ==
            if a.Works(KillSink) then
              Complete(w.(procs := w.procs[pid := w.procs[pid].(state := Signalled)]), id, StopWrite(m, Stopped), a)
            else Complete(w, id, StopWrite(m, FailedStopping), a)
  {
    KillGoes(w, id, m, pid, a);
    Unfold(w, id, StopKill(m, pid), a);
  }

  lemma StopCheckMeets(w: World, id: Uuid, m: IndexerModel, a: Answers)
    ensures Complete(w, id, StopCheck(m), a) ==
            if m.processId.None? then Complete(w, id, StopWrite(m, FailedStopping), a)
            else if !Sees(w, m, a.Works(StopPs)) then Complete(w, id, StopWrite(m, Stopped), a)
            else Complete(w, id, StopKill(m, m.processId.value), a)
  {
    Unfold(w, id, StopCheck(m), a);
    NotRunningIsStopped(m.id);
  }

  lemma NotRunningIsStopped(id: Uuid)
    ensures StatusAfterStop(Failure(InternalServerError(NotRunningMessage(id)))) == Stopped
    ensures StatusAfterStop(Failure(InternalServerError(STOP_WITHOUT_PID))) == FailedStopping
  {
    SubstringTestIsExact(NotRunningMessage(id), id);
    SubstringTestIsExact(STOP_WITHOUT_PID, id);
    assert STOP_WITHOUT_PID[20] == 'w' && NotRunningMessage(id)[20] == 't';
  }

  /** A stop, case by case. */
  lemma StopMeets(w: World, id: Uuid, a: Answers)
    ensures StopReplies(w, id, a, Complete(w, id, StopRead, a))
  {
    Unfold(w, id, StopRead, a);
    if a.Works(StopReadRow) && id in w.table && w.table[id].status == Running {
      var m := w.table[id];
      StopCheckMeets(w, id, m, a);
      StopWriteMeets(w, id, m, Stopped, a);
      StopWriteMeets(w, id, m, FailedStopping, a);
      if Sees(w, m, a.Works(StopPs)) {
        var pid := m.processId.value;
        KillMeets(w, id, m, pid, a);
        StopWriteMeets(w.(procs := w.procs[pid := w.procs[pid].(state := Signalled)]), id, m, Stopped, a);
      }
    }
  }

  /** A fail, case by case. */
  lemma FailMeets(w: World, id: Uuid, a: Answers)
    ensures FailReplies(w, id, a, Complete(w, id, FailRead(None), a))
  {
    Unfold(w, id, FailRead(None), a);
    if a.Works(FailReadRow) && id in w.table && w.table[id].status == Running {
      Unfold(w, id, FailWrite(None, w.table[id]), a);
    }
  }

  /** A delete, case by case. */
  lemma DeleteMeets(w: World, id: Uuid, a: Answers)
    ensures DeleteReplies(w, id, a, Complete(w, id, DeleteRead, a))
  {
    Unfold(w, id, DeleteRead, a);
    if a.Works(DeleteReadRow) && id in w.table && w.table[id].status == Stopped {
      Unfold(w, id, DeleteWrite(w.table[id]), a);
    }
  }

  lemma UpdateCheckMeets(w: World, id: Uuid, target: IndexerStatus, a: Answers)
    requires id in w.table
    ensures var m, out := w.table[id], Complete(w, id, UpdateCheck(w.table[id], target), a);
            if m.processId.None? then
              Refuses(w, out, InternalServerError("Cannot check running status for indexer without process id"))
            else if Sees(w, m, a.Works(UpdatePs)) then
              Refuses(w, out, InternalServerError("Cannot set indexer to stopped if it's still running"))
            else Writes(w, id, target, a.Works(UpdateWriteRow), out)
  {
    var m := w.table[id];
    CheckText();
    Unfold(w, id, UpdateCheck(m, target), a);
    if m.processId.Some? && !Sees(w, m, a.Works(UpdatePs)) {
      Unfold(w, id, UpdateWrite(m, target), a);
    }
  }

  /** A state update, case by case. */
  lemma UpdateMeets(w: World, id: Uuid, target: IndexerStatus, a: Answers)
    ensures UpdateReplies(w, id, target, a, Complete(w, id, UpdateRead(target), a))
  {
    UpdateReadMeets(w, id, target, a);
    if a.Works(UpdateReadRow) && id in w.table {
      UpdateCheckMeets(w, id, target, a);
    }
  }

  lemma UpdateReadMeets(w: World, id: Uuid, target: IndexerStatus, a: Answers)
    ensures Complete(w, id, UpdateRead(target), a) ==
            if !a.Works(UpdateReadRow) then Outcome(w, Failure(InfraError(DbFailure)))
            else if id !in w.table then Outcome(w, Failure(InfraError(NotFound)))
            else
              var from := w.table[id].status;
              if from == Created || from == FailedRunning then Outcome(w, Failure(InvalidIndexerStatus(from)))
              else if from != Running && from != target then
                Outcome(w, Failure(InternalServerError(
                  "Cannot move from " + StatusText(from) + " to " + StatusText(target)
                  + " for indexer " + UuidText(id))))
              else Complete(w, id, UpdateCheck(w.table[id], target), a)
  {
    Unfold(w, id, UpdateRead(target), a);
  }

  // -------------------------------------------------------------------------
  // Creation
  // -------------------------------------------------------------------------

  /** A start or fail made on behalf of a creation goes on where a plain one ends. */
  function Within(pc: Pc, k: Option<IndexerModel>): Pc {
    match pc
    case StartRead(_) => StartRead(k)
    case StartCheck(_, m) => StartCheck(k, m)
    case StartFetch(_, m) => StartFetch(k, m)
    case StartCreateFile(_, m, script) => StartCreateFile(k, m, script)
    case StartWriteFile(_, m, script) => StartWriteFile(k, m, script)
    case StartSpawn(_, m) => StartSpawn(k, m)
    case StartRecord(_, m, pid) => StartRecord(k, m, pid)
    case _ => pc
  }

  function Continued(out: Outcome, id: Uuid, k: Option<IndexerModel>, a: Answers): Outcome {
    if out.result.Success? then Complete(out.w, id, Started(k), a) else out
  }

  /** One step of a start is the same in a creation, up to where it ends. */
  lemma StartStepWithin(w: World, id: Uuid, pc: Pc, k: Option<IndexerModel>, a: Answer)
    requires IsStartPc(pc) && CreatingOf(pc).None?
    ensures var plain, within := Decide(w, id, pc, a), Decide(w, id, Within(pc, k), a);
            && within.effect == plain.effect
            && (plain.pc.Done? && plain.pc.result.Success? ==> within.pc == Started(k))
            && (plain.pc.Done? && plain.pc.result.Failure? ==> within.pc == plain.pc)
            && (!plain.pc.Done? ==>
                  IsStartPc(plain.pc) && CreatingOf(plain.pc).None? && within.pc == Within(plain.pc, k))
  {
  }

  lemma {:induction false} StartWithin(w: World, id: Uuid, pc: Pc, k: Option<IndexerModel>, a: Answers)
    requires IsStartPc(pc) && CreatingOf(pc).None?
    ensures Complete(w, id, Within(pc, k), a) == Continued(Complete(w, id, pc, a), id, k, a)
    decreases Rank(pc)
  {
    var r := Reply(a, pc);
    var d := Decide(w, id, pc, r);
    StartStepWithin(w, id, pc, k, r);
    RankDecreases(w, id, pc, r);
    Unfold(w, id, pc, a);
    Unfold(w, id, Within(pc, k), a);
    if d.pc.Done? {
    } else {
      StartWithin(Apply(w, id, d.effect), id, d.pc, k, a);
    }
  }

  /** A fail made by a creation replies with the inserted row. */
  lemma FailWithin(w: World, id: Uuid, k: Option<IndexerModel>, a: Answers)
    ensures var plain, within := Complete(w, id, FailRead(None), a), Complete(w, id, FailRead(k), a);
            && within.w == plain.w
            && within.result == if plain.result.Success? then Success(k) else plain.result
  {
    Unfold(w, id, FailRead(None), a);
    Unfold(w, id, FailRead(k), a);
    if id in w.table && w.table[id].status == Running && a.Works(FailReadRow) {
      Unfold(w, id, FailWrite(None, w.table[id]), a);
      Unfold(w, id, FailWrite(k, w.table[id]), a);
    }
  }

  lemma QueryMeets(w: World, id: Uuid, row: IndexerModel, a: Answers)
    requires row.statusServerPort.Some?
    ensures FinishReplies(row, Outcome(w, Success(None)), id, a, Complete(w, id, CreateQuery(row), a))
  {
    Unfold(w, id, CreateQuery(row), a);
    if a.Works(QuerySink) && a.status != 1 {
      FailMeets(w, id, a);
      FailWithin(w, id, Some(row), a);
    }
  }

  lemma StartedMeets(w: World, id: Uuid, row: IndexerModel, a: Answers)
    requires row.statusServerPort.Some?
    ensures FinishReplies(
              row, Complete(w, id, StartRead(None), a), id, a, Complete(w, id, StartRead(Some(row)), a))
  {
    var started := Complete(w, id, StartRead(None), a);
    StartWithin(w, id, StartRead(None), Some(row), a);
    if started.result.Success? {
      QueryMeets(started.w, id, row, a);
    }
  }

  lemma InsertMeets(w: World, id: Uuid, r: CreateIndexerRequest, a: Answers)
    ensures var out, stored := Complete(w, id, CreateInsert(r), a), w.(store := w.store[ScriptKey(id) := r.data]);
            if !a.Works(ConnectPool) then Refuses(w, out, Panicked(PoolConnection))
            else if !a.Works(InsertRow) then Refuses(w, out, FailedToQueryDb)
            else if !a.Works(UploadScript) then Refuses(w, out, FailedToUploadToStore)
            else if !a.Works(CommitCreate) then Refuses(stored, out, FailedToQueryDb)
            else
              var row := NewRow(id, r);
              out == Complete(stored.(table := w.table[id := row]), id, StartRead(Some(row)), a)
  {
    Unfold(w, id, CreateInsert(r), a);
    if a.Works(ConnectPool) && a.Works(InsertRow) {
      Unfold(w, id, CreateUpload(r), a);
      if a.Works(UploadScript) {
        Unfold(w.(store := w.store[ScriptKey(id) := r.data]), id, CreateCommit(r), a);
      }
    }
  }

  /** A creation, case by case. */
  lemma CreateMeets(w: World, id: Uuid, r: CreateIndexerRequest, a: Answers)
    ensures CreateReplies(w, id, r, a, Complete(w, id, CreateInsert(r), a))
  {
    InsertMeets(w, id, r, a);
    if CreationWorks(a) {
      var row := NewRow(id, r);
      var w1 := w.(store := w.store[ScriptKey(id) := r.data], table := w.table[id := row]);
      NewRowIsFresh(id, r);
      StartMeets(w1, id, a);
      StartedMeets(w1, id, row, a);
    }
  }

  /** A creation from a form, case by case. */
  lemma FormMeets(
      w: World, id: Uuid, fields: seq<Field>, port: Option<int>,
      built: Result<CreateIndexerRequest, IndexerError>, a: Answers)
    requires Builds(fields, port, built)
    ensures FormReplies(w, id, fields, port, a,
              if built.Success? then Complete(w, id, CreateInsert(built.value), a)
              else Outcome(w, Failure(built.error)))
  {
    BuildsFromFields(fields, port, built);
    if built.Success? {
      CreateMeets(w, id, built.value, a);
    } else if i: nat :| IsFirstRefused(fields, i) && IsReplyTo(fields[i], built.error) {
      assert Refuses(w, Outcome(w, Failure(built.error)), built.error);
    }
  }
}
