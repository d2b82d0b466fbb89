/**
 * The handlers as the service runs them, over the repository, the object store, the temporary files
 * and the process table. Each method is proved to do what its program of atomic steps does when
 * nobody else acts; the answers of the outside world come in as a parameter.
 */
module Service {
  import opened Wrappers
  import opened Domain
  import opened Request
  import opened IndexerTypes
  import opened Protocol
  import opened Serial
  import opened Replies
  import opened Repository
  import Boot
  import Decimal

  type Response = Result<Option<IndexerModel>, IndexerError>

  class IndexerService {
    const cfg: Config
    const repository: IndexerRepository
    var store: map<string, Bytes>
    var files: map<string, Bytes>
    var procs: map<int, Proc>

    ghost predicate Valid()
      reads this, repository
    {
      repository.Valid()
    }

    /** The abstract world the handlers act on. */
    ghost function World(): World
      requires Valid()
      reads this, repository
    {
      Protocol.World(cfg, repository.Model(), store, files, procs)
    }

    constructor (cfg: Config)
      ensures Valid() && fresh(repository) && World() == Protocol.World(cfg, map[], map[], map[], map[])
    {
      this.cfg := cfg;
      this.repository := new IndexerRepository();
      store, files, procs := map[], map[], map[];
    }

    /** `ps -o stat= -p pid | grep -vq Z`, as a test of success. */
    method IsRunning(m: IndexerModel, works: bool) returns (r: Result<bool, IndexerError>)
      requires Valid()
      ensures r == Protocol.IsRunning(World(), m, if works then Ok else Fail)
      ensures m.processId.None? ==>
                r == Failure(InternalServerError("Cannot check running status for indexer without process id"))
      ensures m.processId.Some? ==> r == Success(works && IsUp(World(), m.processId.value))
    {
      if m.processId.None? {
        CheckText();
        return Failure(InternalServerError(CHECK_WITHOUT_PID));
      }
      var pid := m.processId.value;
      return Success(works && pid in procs && procs[pid].IsLive());
    }

    /** Build the command of the row's kind and spawn it. */
    method Start(m: IndexerModel, io: Answers) returns (r: Result<int, IndexerError>)
      requires Valid()
      modifies this`procs
      ensures Valid() && repository.rows == old(repository.rows)
      ensures IsStartable(m) && SpawnWorks(old(World()), io) ==>
                r == Success(io.pid) && procs == old(procs)[io.pid := Proc(Sink(m.id), Alive, Some(CommandFor(cfg, m)))]
      ensures IsStartable(m) && !SpawnWorks(old(World()), io) ==>
                r == Failure(FailedToStartIndexer(m.id)) && procs == old(procs)
      ensures !IsStartable(m) ==> r == Failure(Panicked(KindField)) && procs == old(procs)
      ensures r.Success? ==> io.pid in procs && IsNewSink(procs[io.pid], cfg, m.id, m)
    {
      if !IsStartable(m) {
        return Failure(Panicked(KindField));
      }
      CommandRunsRow(cfg, m);
      var extraArgs: seq<string>;
      match m.indexerType {
        case Postgres =>
          extraArgs := ["--connection-string", OrElse(m.customConnectionString, cfg.postgresConnection),
                        "--table-name", m.tableName.value];
        case Webhook =>
          extraArgs := ["--target-url", m.targetUrl.value];
      }
      var args := [
        "run", ScriptTmpPath(cfg.tmp, m.id),
        "--auth-token", cfg.authToken,
        "--persist-to-redis", cfg.redisUrl,
        "--sink-id", OrElse(m.indexerId, UuidText(m.id)),
        "--status-server-address", "0.0.0.0:" + Decimal.IntText(OrElse(m.statusServerPort, DEFAULT_STATUS_PORT)),
        "--allow-env-from-env", "STARTING_BLOCK"];
      args := args + extraArgs;
      var binary := cfg.binaryBasePath + "/" + BinaryName(m.indexerType);
      var block := Decimal.IntText(OrElse(m.startingBlock, DEFAULT_STARTING_BLOCK));
      if !io.Works(SpawnSink) || !(0 <= io.pid < PID_LIMIT) || (io.pid in procs && procs[io.pid].state != Gone) {
        return Failure(FailedToStartIndexer(m.id));
      }
      procs := procs[io.pid := Proc(Sink(m.id), Alive, Some(Command(binary, args, block)))];
      return Success(io.pid);
    }

    /** The kind's stop: check, then `kill`. A successful kill has only sent the signal. */
    method Stop(m: IndexerModel, io: Answers) returns (r: Result<(), IndexerError>)
      requires Valid()
      modifies this`procs
      ensures Valid() && repository.rows == old(repository.rows)
      ensures m.processId.None? ==> r == Failure(InternalServerError(STOP_WITHOUT_PID)) && procs == old(procs)
      ensures m.processId.Some? && !SeenRunning(old(World()), m, io) ==>
                r == Failure(InternalServerError(NotRunningMessage(m.id))) && procs == old(procs)
      ensures m.processId.Some? && SeenRunning(old(World()), m, io) && io.Works(KillSink) ==>
                r == Success(()) && procs == old(procs)[m.processId.value := Signal(old(procs)[m.processId.value])]
      ensures m.processId.Some? && SeenRunning(old(World()), m, io) && !io.Works(KillSink) ==>
                r == Failure(FailedToStopIndexer(m.processId.value)) && procs == old(procs)
    {
      if m.processId.None? {
        return Failure(InternalServerError(STOP_WITHOUT_PID));
      }
      var running := IsRunning(m, io.Works(StopPs));
      if running == Success(false) {
        return Failure(InternalServerError(NotRunningMessage(m.id)));
      }
      var pid := m.processId.value;
      if !io.Works(KillSink) {
        return Failure(FailedToStopIndexer(pid));
      }
      procs := procs[pid := Signal(procs[pid])];
      return Success(());
    }

    method StartIndexer(id: Uuid, io: Answers) returns (r: Response)
      requires Valid()
      modifies this, repository
      ensures Valid() && Outcome(World(), r) == Complete(old(World()), id, StartRead(None), io)
      ensures StartReplies(old(World()), id, io, Outcome(World(), r))
    {
      ghost var w0 := World();
      StartMeets(w0, id, io);
      Unfold(w0, id, StartRead(None), io);
      var found := repository.Get(id, io.Works(StartReadRow));
      if found.Failure? {
        return Failure(InfraError(found.error));
      }
      var m := found.value;
      match m.status {
        case Created =>
        case Stopped =>
        case FailedRunning =>
        case Running =>
          Unfold(w0, id, StartCheck(None, m), io);
          var running := IsRunning(m, io.Works(StartPs));
          if running.Failure? {
            return Failure(running.error);
          }
          if running.value {
            return Success(None);
          }
        case FailedStopping =>
          return Failure(InvalidIndexerStatus(m.status));
      }
      assert Complete(w0, id, StartRead(None), io) == Complete(w0, id, StartFetch(None, m), io);
      r := StartFromStore(m, io);
    }

    /** The rest of a start: fetch the script, write it, spawn, record. */
    method StartFromStore(m: IndexerModel, io: Answers) returns (r: Response)
      requires Valid() && m.id in repository.rows && repository.Model()[m.id] == m
      modifies this, repository
      ensures Valid() && Outcome(World(), r) == Complete(old(World()), m.id, StartFetch(None, m), io)
    {
      Unfold(World(), m.id, StartFetch(None, m), io);
      if !io.Works(FetchScript) || ScriptKey(m.id) !in store {
        return Failure(FailedToGetFromStore);
      }
      var script := store[ScriptKey(m.id)];
      r := WriteAndSpawn(m, script, io);
    }

    /** Creating the file empties it, whether or not the write that follows works. */
    method WriteAndSpawn(m: IndexerModel, script: Bytes, io: Answers) returns (r: Response)
      requires Valid()
      modifies this, repository
      ensures Valid() && Outcome(World(), r) == Complete(old(World()), m.id, StartCreateFile(None, m, script), io)
    {
      Unfold(World(), m.id, StartCreateFile(None, m, script), io);
      if !io.Works(CreateFile) {
        return Failure(FailedToCreateFile);
      }
      files := files[ScriptTmpPath(cfg.tmp, m.id) := []];
      Unfold(World(), m.id, StartWriteFile(None, m, script), io);
      ghost var w1 := World();
      var written := WriteAll(m.id, script, io);
      ghost var bytes := Reaching(script, Reply(io, StartWriteFile(None, m, script)));
      assert FileAt(World(), m.id) == Overwrite(FileAt(w1, m.id), bytes);
      if !written {
        return Failure(FailedToCreateFile);
      }
      r := SpawnAndRecord(m, io);
    }

    /**
     * `write_all` to the file just created: it leaves a beginning of the script, as long as what was written,
     * and the whole script exactly when it works.
     */
    method WriteAll(id: Uuid, script: Bytes, io: Answers) returns (ok: bool)
      requires Valid() && FileAt(World(), id) == []
      modifies this`files
      ensures Valid() && repository.rows == old(repository.rows)
      ensures ok <==> io.Works(WriteFile)
      ensures FileAt(World(), id) <= script
      ensures FileAt(World(), id) == script <==> ok || script == []
      ensures !ok && io.written < |script| ==> |FileAt(World(), id)| == io.written
      ensures !ok && io.written >= |script| ==> FileAt(World(), id) == []
      ensures files == old(files)[ScriptTmpPath(cfg.tmp, id) := FileAt(World(), id)]
    {
      ok := io.Works(WriteFile);
      var path := ScriptTmpPath(cfg.tmp, id);
      var file := if path in files then files[path] else [];
      var bytes := if ok then script else if io.written < |script| then script[..io.written] else [];
      files := files[path := Overwrite(file, bytes)];
    }

    method SpawnAndRecord(m: IndexerModel, io: Answers) returns (r: Response)
      requires Valid()
      modifies this, repository
      ensures Valid() && Outcome(World(), r) == Complete(old(World()), m.id, StartSpawn(None, m), io)
    {
      Unfold(World(), m.id, StartSpawn(None, m), io);
      var started := Start(m, io);
      if started.Failure? {
        return Failure(started.error);
      }
      r := RecordStart(m, started.value, io);
    }

    method RecordStart(m: IndexerModel, pid: int, io: Answers) returns (r: Response)
      requires Valid()
      modifies repository
      ensures Valid() && Outcome(World(), r) == Complete(old(World()), m.id, StartRecord(None, m, pid), io)
    {
      Unfold(World(), m.id, StartRecord(None, m, pid), io);
      StatusRoundTrip(Running, StatusText(Running));
      var updated := repository.UpdateStatusAndProcessId(m.id, StatusText(Running), pid, io.Works(RecordPid));
      if updated.Failure? {
        return Failure(InfraError(updated.error));
      }
      return Success(None);
    }

    method StopIndexer(id: Uuid, io: Answers) returns (r: Response)
      requires Valid()
      modifies this, repository
      ensures Valid() && Outcome(World(), r) == Complete(old(World()), id, StopRead, io)
      ensures StopReplies(old(World()), id, io, Outcome(World(), r))
    {
      ghost var w0 := World();
      StopMeets(w0, id, io);
      Unfold(w0, id, StopRead, io);
      var found := repository.Get(id, io.Works(StopReadRow));
      if found.Failure? {
        return Failure(InfraError(found.error));
      }
      var m := found.value;
      if m.status != Running {
        return Failure(InvalidIndexerStatus(m.status));
      }
      var stopped := Stop(m, io);
      var newStatus: IndexerStatus;
      match stopped {
        case Success(_) =>
          newStatus := Stopped;
        case Failure(e) =>
          if e.InternalServerError? && Contains(e.message, NOT_RUNNING) {
            newStatus := Stopped;
          } else {
            newStatus := FailedStopping;
          }
      }
      assert newStatus == StatusAfterStop(stopped);
      StopReachesWrite(w0, World(), id, m, io, stopped);
      r := RecordStop(id, m, newStatus, io);
    }

    method RecordStop(id: Uuid, m: IndexerModel, newStatus: IndexerStatus, io: Answers) returns (r: Response)
      requires Valid()
      modifies repository
      ensures Valid() && Outcome(World(), r) == Complete(old(World()), id, StopWrite(m, newStatus), io)
    {
      Unfold(World(), id, StopWrite(m, newStatus), io);
      StatusRoundTrip(newStatus, StatusText(newStatus));
      var updated := repository.UpdateStatus(id, StatusText(newStatus), io.Works(StopWriteRow));
      if updated.Failure? {
        return Failure(InfraError(updated.error));
      }
      return Success(None);
    }

    method FailIndexer(id: Uuid, io: Answers) returns (r: Response)
      requires Valid()
      modifies this, repository
      ensures Valid() && Outcome(World(), r) == Complete(old(World()), id, FailRead(None), io)
      ensures FailReplies(old(World()), id, io, Outcome(World(), r))
    {
      ghost var w0 := World();
      FailMeets(w0, id, io);
      Unfold(w0, id, FailRead(None), io);
      var found := repository.Get(id, io.Works(FailReadRow));
      if found.Failure? {
        return Failure(InfraError(found.error));
      }
      if found.value.status != Running {
        return Failure(InvalidIndexerStatus(found.value.status));
      }
      Unfold(w0, id, FailWrite(None, found.value), io);
      StatusRoundTrip(FailedRunning, StatusText(FailedRunning));
      var updated := repository.UpdateStatus(id, StatusText(FailedRunning), io.Works(FailWriteRow));
      if updated.Failure? {
        return Failure(InfraError(updated.error));
      }
      return Success(None);
    }

    method DeleteIndexer(id: Uuid, io: Answers) returns (r: Response)
      requires Valid()
      modifies this, repository
      ensures Valid() && Outcome(World(), r) == Complete(old(World()), id, DeleteRead, io)
      ensures DeleteReplies(old(World()), id, io, Outcome(World(), r))
    {
      ghost var w0 := World();
      DeleteMeets(w0, id, io);
      Unfold(w0, id, DeleteRead, io);
      var found := repository.Get(id, io.Works(DeleteReadRow));
      if found.Failure? {
        return Failure(InfraError(found.error));
      }
      if found.value.status != Stopped {
        return Failure(InvalidIndexerStatus(found.value.status));
      }
      Unfold(w0, id, DeleteWrite(found.value), io);
      var deleted := repository.Delete(id, io.Works(DeleteRow));
      if deleted.Failure? {
        return Failure(InfraError(deleted.error));
      }
      return Success(None);
    }

    method UpdateIndexerState(id: Uuid, newStatus: IndexerStatus, io: Answers) returns (r: Response)
      requires Valid()
      modifies this, repository
      ensures Valid() && Outcome(World(), r) == Complete(old(World()), id, UpdateRead(newStatus), io)
      ensures UpdateReplies(old(World()), id, newStatus, io, Outcome(World(), r))
    {
      ghost var w0 := World();
      UpdateMeets(w0, id, newStatus, io);
      Unfold(w0, id, UpdateRead(newStatus), io);
      var found := repository.Get(id, io.Works(UpdateReadRow));
      if found.Failure? {
        return Failure(InfraError(found.error));
      }
      var m := found.value;
      match m.status {
        case Running =>
        case Stopped =>
          if m.status != newStatus {
            return Failure(InternalServerError(CannotMoveMessage(m.status, newStatus, id)));
          }
        case FailedStopping =>
          if m.status != newStatus {
            return Failure(InternalServerError(CannotMoveMessage(m.status, newStatus, id)));
          }
        case _ =>
          return Failure(InvalidIndexerStatus(m.status));
      }
      r := CheckAndUpdate(id, m, newStatus, io);
    }

    method CheckAndUpdate(id: Uuid, m: IndexerModel, newStatus: IndexerStatus, io: Answers) returns (r: Response)
      requires Valid()
      modifies this, repository
      ensures Valid() && Outcome(World(), r) == Complete(old(World()), id, UpdateCheck(m, newStatus), io)
    {
      ghost var w0 := World();
      Unfold(w0, id, UpdateCheck(m, newStatus), io);
      var running := IsRunning(m, io.Works(UpdatePs));
      if running.Failure? {
        return Failure(running.error);
      }
      if running.value {
        return Failure(InternalServerError(STILL_RUNNING));
      }
      Unfold(w0, id, UpdateWrite(m, newStatus), io);
      StatusRoundTrip(newStatus, StatusText(newStatus));
      var updated := repository.UpdateStatus(id, StatusText(newStatus), io.Works(UpdateWriteRow));
      if updated.Failure? {
        return Failure(InfraError(updated.error));
      }
      return Success(None);
    }

    /** `fields` is the multipart body, `port` the free port found, `id` the fresh id. */
    method CreateIndexer(id: Uuid, fields: seq<Field>, port: Option<int>, io: Answers) returns (r: Response)
      requires Valid() && id !in repository.rows
      modifies this, repository
      ensures Valid()
      ensures exists built :: Builds(fields, port, built) &&
                Outcome(World(), r) == if built.Success? then Complete(old(World()), id, CreateInsert(built.value), io)
                                       else Outcome(old(World()), Failure(built.error))
      ensures FormReplies(old(World()), id, fields, port, io, Outcome(World(), r))
    {
      var built := BuildCreateIndexerRequest(fields, port);
      FormMeets(World(), id, fields, port, built, io);
      if built.Failure? {
        return Failure(built.error);
      }
      r := CreateFromRequest(id, built.value, io);
    }

    method CreateFromRequest(id: Uuid, request: CreateIndexerRequest, io: Answers) returns (r: Response)
      requires Valid() && id !in repository.rows
      modifies this, repository
      ensures Valid() && Outcome(World(), r) == Complete(old(World()), id, CreateInsert(request), io)
    {
      ghost var w0 := World();
      var newIndexer := NewIndexerDb(
        id, StatusText(Created), TypeText(request.indexerType), request.targetUrl, request.tableName, None,
        request.customConnectionString, request.startingBlock, request.indexerId);
      Unfold(w0, id, CreateInsert(request), io);
      if !io.Works(ConnectPool) {
        return Failure(Panicked(PoolConnection));
      }
      if !io.Works(InsertRow) {
        return Failure(FailedToQueryDb);
      }
      Unfold(w0, id, CreateUpload(request), io);
      if !io.Works(UploadScript) {
        return Failure(FailedToUploadToStore);
      }
      store := store[ScriptKey(id) := request.data];
      Unfold(World(), id, CreateCommit(request), io);
      if !io.Works(CommitCreate) {
        return Failure(FailedToQueryDb);
      }
      StatusRoundTrip(Created, StatusText(Created));
      TypeRoundTrip(request.indexerType, TypeText(request.indexerType));
      var inserted := repository.InsertRow(newIndexer, true);
      var created := inserted.value;
      assert created == NewRow(id, request);
      r := CreateFromRow(id, created, io);
    }

    /** After the transaction: start, ask the sink, and mark a sink that is not running. */
    method CreateFromRow(id: Uuid, created: IndexerModel, io: Answers) returns (r: Response)
      requires Valid()
      modifies this, repository
      ensures Valid() && Outcome(World(), r) == Complete(old(World()), id, StartRead(Some(created)), io)
    {
      StartWithin(World(), id, StartRead(None), Some(created), io);
      var started := StartIndexer(id, io);
      if started.Failure? {
        return Failure(started.error);
      }
      r := FinishCreation(id, created, io);
    }

    method FinishCreation(id: Uuid, created: IndexerModel, io: Answers) returns (r: Response)
      requires Valid()
      modifies this, repository
      ensures Valid() && Outcome(World(), r) == Complete(old(World()), id, CreateQuery(created), io)
    {
      Unfold(World(), id, CreateQuery(created), io);
      if created.statusServerPort.None? {
        return Failure(StatusServerPortNotFound);
      }
      if !io.Works(QuerySink) {
        return Failure(StatusServerUnavailable);
      }
      if io.status != 1 {
        FailWithin(World(), id, Some(created), io);
        var failed := FailIndexer(id, io);
        if failed.Failure? {
          return Failure(failed.error);
        }
      }
      return Success(Some(created));
    }

    /** Boot recovery: the rows marked Running, in the order the database returns them. */
    method StartAllIndexers(io: Uuid -> Answers, ok: bool) returns (r: Result<(), IndexerError>, ghost order: seq<Uuid>)
      requires Valid()
      modifies this, repository
      ensures Valid()
      ensures !ok ==> r == Failure(InfraError(DbFailure)) && World() == old(World())
      ensures ok ==> r == Success(()) && World() == Boot.StartEach(old(World()), order, io)
      ensures ok ==> Boot.Distinct(order)
      ensures ok ==> forall id :: id in order <==> id in old(World()).table && old(World()).table[id].status == Running
    {
      order := [];
      var selected := repository.GetAll(Some(StatusText(Running)), ok);
      if selected.Failure? {
        return Failure(InfraError(selected.error)), order;
      }
      var indexers := selected.value;
      order := seq(|indexers|, i requires 0 <= i < |indexers| => indexers[i].id);
      SelectedAreRunning(indexers, repository.rows, order);
      ghost var w0 := World();
      var i := 0;
      while i < |indexers|
        invariant 0 <= i <= |indexers| && Valid()
        invariant Boot.StartEach(World(), order[i..], io) == Boot.StartEach(w0, order, io)
      {
        assert order[i..][0] == indexers[i].id && order[i..][1..] == order[i + 1..];
        var _ := StartIndexer(indexers[i].id, io(indexers[i].id));
        i := i + 1;
      }
      return Success(()), order;
    }
  }

  /** The row filter by status text selects exactly the typed Running rows. */
  lemma SelectedAreRunning(ms: seq<IndexerModel>, rows: Rows, order: seq<Uuid>)
    requires AllConvert(rows) && IsSelection(ms, rows, Some(StatusText(Running)))
    requires |order| == |ms| && forall i | 0 <= i < |ms| :: order[i] == ms[i].id
    ensures Boot.Distinct(order)
    ensures forall id :: id in order <==> id in ModelOf(rows) && ModelOf(rows)[id].status == Running
  {
    forall id ensures id in order <==> id in ModelOf(rows) && ModelOf(rows)[id].status == Running {
      if id in rows {
        StatusRoundTrip(Running, rows[id].status);
        if rows[id].status == StatusText(Running) {
          assert Matches(rows[id], Some(StatusText(Running)));
          var i :| 0 <= i < |ms| && ms[i].id == id;
          assert order[i] == id;
        }
      }
    }
  }

  /** From its read, a stop reaches its write with the status its outcome is classified to. */
  lemma StopReachesWrite(
      w0: World, w1: World, id: Uuid, m: IndexerModel, a: Answers, outcome: Result<(), IndexerError>)
    requires m.processId.Some? && SeenRunning(w0, m, a) && a.Works(KillSink) ==>
               var pid := m.processId.value;
               outcome == Success(()) && w1 == w0.(procs := w0.procs[pid := Signal(w0.procs[pid])])
    requires m.processId.Some? && SeenRunning(w0, m, a) && !a.Works(KillSink) ==>
               outcome == Failure(FailedToStopIndexer(m.processId.value)) && w1 == w0
    requires m.processId.Some? && !SeenRunning(w0, m, a) ==>
               outcome == Failure(InternalServerError(NotRunningMessage(m.id))) && w1 == w0
    requires m.processId.None? ==> outcome == Failure(InternalServerError(STOP_WITHOUT_PID)) && w1 == w0
    ensures Complete(w0, id, StopCheck(m), a) == Complete(w1, id, StopWrite(m, StatusAfterStop(outcome)), a)
  {
    Unfold(w0, id, StopCheck(m), a);
    if m.processId.Some? && SeenRunning(w0, m, a) {
      Unfold(w0, id, StopKill(m, m.processId.value), a);
    }
  }
}
