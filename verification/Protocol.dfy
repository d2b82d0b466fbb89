/**
 * The lifecycle handlers as programs of atomic steps.
 *
 * Each database statement, object-store call, file creation, file write, `ps`, `kill` and spawn is one
 * step that may fail. A step reads the world, has at most one effect on it, and moves its handler on.
 */
module Protocol {
  import opened Wrappers
  import opened Domain
  import opened Request
  import opened IndexerTypes

  // -------------------------------------------------------------------------
  // The shared stores
  // -------------------------------------------------------------------------

  /** Process ids are `u32`, stored as a BIGINT. */
  const PID_LIMIT: int := 0x1_0000_0000

  datatype Owner = Sink(id: Uuid) | Foreign

  /** `Signalled` is alive with SIGTERM sent; `Gone` remembers a pid the system may hand out again. */
  datatype ProcState = Alive | Signalled | Zombie | Gone

  datatype Proc = Proc(owner: Owner, state: ProcState, command: Option<Command>) {
    predicate IsLive() {
      state == Alive || state == Signalled
    }
  }

  datatype World = World(
    cfg: Config,
    table: map<Uuid, IndexerModel>,
    store: map<string, Bytes>,
    files: map<string, Bytes>,
    procs: map<int, Proc>)

  predicate Live(w: World, pid: int) {
    pid in w.procs && w.procs[pid].IsLive()
  }

  /** The system hands out only pids that no process, not even a zombie, holds. */
  predicate Taken(w: World, pid: int) {
    pid in w.procs && w.procs[pid].state != Gone
  }

  /** The row an insert leaves: no port is sent, so the column default applies. */
  function NewRow(id: Uuid, r: CreateIndexerRequest): IndexerModel {
    IndexerModel(
      id, Created, r.indexerType, None, r.targetUrl, r.tableName, Some(DEFAULT_STATUS_PORT),
      r.customConnectionString, r.startingBlock, r.indexerId)
  }

  /** The row has each field of the request under its own name, and the default port. */
  predicate CarriesRequest(m: IndexerModel, id: Uuid, r: CreateIndexerRequest) {
    && m.id == id && m.indexerType == r.indexerType
    && m.targetUrl == r.targetUrl && m.tableName == r.tableName && m.indexerId == r.indexerId
    && m.startingBlock == r.startingBlock && m.customConnectionString == r.customConnectionString
    && m.statusServerPort == Some(1234)
  }

  /** ... and nothing has happened to it yet. */
  predicate IsFreshRow(m: IndexerModel, id: Uuid, r: CreateIndexerRequest) {
    CarriesRequest(m, id, r) && m.status == Created && m.processId == None
  }

  lemma NewRowIsFresh(id: Uuid, r: CreateIndexerRequest)
    ensures IsFreshRow(NewRow(id, r), id, r)
  {
  }

  // -------------------------------------------------------------------------
  // Handler programs
  // -------------------------------------------------------------------------

  /**
   * Where a handler stands. `snap` is the row it read; `creating` is the inserted row when the
   * handler runs inside `create_indexer`.
   */
  datatype Pc =
    | StartRead(creating: Option<IndexerModel>)
    | StartCheck(creating: Option<IndexerModel>, snap: IndexerModel)
    | StartFetch(creating: Option<IndexerModel>, snap: IndexerModel)
    | StartCreateFile(creating: Option<IndexerModel>, snap: IndexerModel, script: Bytes)
    | StartWriteFile(creating: Option<IndexerModel>, snap: IndexerModel, script: Bytes)
    | StartSpawn(creating: Option<IndexerModel>, snap: IndexerModel)
    | StartRecord(creating: Option<IndexerModel>, snap: IndexerModel, pid: int)
    | StopRead
    | StopCheck(snap: IndexerModel)
    | StopKill(snap: IndexerModel, pid: int)
    | StopWrite(snap: IndexerModel, target: IndexerStatus)
    | FailRead(creating: Option<IndexerModel>)
    | FailWrite(creating: Option<IndexerModel>, snap: IndexerModel)
    | DeleteRead
    | DeleteWrite(snap: IndexerModel)
    | UpdateRead(target: IndexerStatus)
    | UpdateCheck(snap: IndexerModel, target: IndexerStatus)
    | UpdateWrite(snap: IndexerModel, target: IndexerStatus)
    | CreateInsert(request: CreateIndexerRequest)
    | CreateUpload(request: CreateIndexerRequest)
    | CreateCommit(request: CreateIndexerRequest)
    | CreateQuery(created: IndexerModel)
    | Done(result: Result<Option<IndexerModel>, IndexerError>)

  /**
   * What the outside world answers a step with. `Unconnected` is a pool without a connection, `Short` a
   * write that fails after so many bytes; where they do not apply they are failures like any other.
   */
  datatype Answer = Ok | Fail | Unconnected | Short(count: nat) | Spawned(newPid: int) | Reported(status: int)

  /** The at most one change a step makes; rows, scripts and files are those of the handler's id. */
  datatype Effect =
    | NoEffect
    | SetRow(row: IndexerModel)
    | DropRow
    | PutScript(bytes: Bytes)
    | WriteScript(bytes: Bytes)
    | SetProc(pid: int, proc: Proc)

  function Apply(w: World, id: Uuid, e: Effect): World {
    match e
    case NoEffect => w
    case SetRow(row) => w.(table := w.table[id := row])
    case DropRow => w.(table := w.table - {id})
    case PutScript(bytes) => w.(store := w.store[ScriptKey(id) := bytes])
    case WriteScript(bytes) => w.(files := w.files[ScriptTmpPath(w.cfg.tmp, id) := bytes])
    case SetProc(pid, proc) => w.(procs := w.procs[pid := proc])
  }

  /** What a step decides: its effect, and where its handler goes. */
  datatype Decision = Decision(effect: Effect, pc: Pc)

  function Fails(error: IndexerError): Decision {
    Decision(NoEffect, Done(Failure(error)))
  }

  function Goes(pc: Pc): Decision {
    Decision(NoEffect, pc)
  }

  /** `ps` piped into `grep`: a pipeline that fails reads as "not running". */
  function IsRunning(w: World, m: IndexerModel, a: Answer): Result<bool, IndexerError> {
    if m.processId.None? then Failure(InternalServerError(CHECK_WITHOUT_PID))
    else Success(a.Ok? && Live(w, m.processId.value))
  }

  /** The row an update by id returns, or the error it reports. */
  function Found(w: World, id: Uuid, a: Answer): Result<IndexerModel, IndexerError> {
    if !a.Ok? then Failure(InfraError(DbFailure))
    else if id !in w.table then Failure(InfraError(NotFound))
    else Success(w.table[id])
  }

  /** After a start that succeeded. */
  function Started(creating: Option<IndexerModel>): Pc {
    match creating
    case None => Done(Success(None))
    case Some(created) => CreateQuery(created)
  }

  function StartGate(creating: Option<IndexerModel>, m: IndexerModel): Pc {
    match m.status
    case Running => StartCheck(creating, m)
    case FailedStopping => Done(Failure(InvalidIndexerStatus(m.status)))
    case _ => StartFetch(creating, m)
  }

  /** A redundant move is let through to the liveness check; any other one is refused. */
  function UpdateGate(id: Uuid, m: IndexerModel, target: IndexerStatus): Pc {
    match m.status
    case Running => UpdateCheck(m, target)
    case Created => Done(Failure(InvalidIndexerStatus(m.status)))
    case FailedRunning => Done(Failure(InvalidIndexerStatus(m.status)))
    case _ =>
      if m.status == target then UpdateCheck(m, target)
      else Done(Failure(InternalServerError(CannotMoveMessage(m.status, target, id))))
  }

  function Signal(p: Proc): Proc {
    if p.state == Alive then p.(state := Signalled) else p
  }

  function FileAt(w: World, id: Uuid): Bytes {
    var path := ScriptTmpPath(w.cfg.tmp, id);
    if path in w.files then w.files[path] else []
  }

  /** Bytes written from the start of a file replace what they cover and keep what lies behind. */
  function Overwrite(file: Bytes, bytes: Bytes): Bytes {
    if |file| <= |bytes| then bytes else bytes + file[|bytes|..]
  }

  /** The bytes of a script that reach the file: all of them only if the write succeeds. */
  function Reaching(script: Bytes, a: Answer): Bytes {
    match a
    case Ok => script
    case Short(count) => if count < |script| then script[..count] else []
    case _ => []
  }

  predicate IsStartPc(pc: Pc) {
    || pc.StartRead? || pc.StartCheck? || pc.StartFetch? || pc.StartCreateFile? || pc.StartWriteFile?
    || pc.StartSpawn? || pc.StartRecord?
  }

  predicate IsStopPc(pc: Pc) {
    pc.StopRead? || pc.StopCheck? || pc.StopKill? || pc.StopWrite?
  }

  predicate IsFailOrDeletePc(pc: Pc) {
    pc.FailRead? || pc.FailWrite? || pc.DeleteRead? || pc.DeleteWrite?
  }

  predicate IsUpdatePc(pc: Pc) {
    pc.UpdateRead? || pc.UpdateCheck? || pc.UpdateWrite?
  }

  predicate IsCreatePc(pc: Pc) {
    pc.CreateInsert? || pc.CreateUpload? || pc.CreateCommit? || pc.CreateQuery?
  }

  function DecideStart(w: World, id: Uuid, pc: Pc, a: Answer): Decision
    requires IsStartPc(pc)
  {
    match pc
    case StartRead(k) =>
      var found := Found(w, id, a);
      if found.Failure? then Fails(found.error) else Goes(StartGate(k, found.value))
    case StartCheck(k, m) =>
      var running := IsRunning(w, m, a);
      if running.Failure? then Fails(running.error)
      else if running.value then Goes(Started(k))
      else Goes(StartFetch(k, m))
    case StartFetch(k, m) =>
      if !a.Ok? || ScriptKey(id) !in w.store then Fails(FailedToGetFromStore)
      else Goes(StartCreateFile(k, m, w.store[ScriptKey(id)]))
    case StartCreateFile(k, m, script) =>
      if !a.Ok? then Fails(FailedToCreateFile) else Decision(WriteScript([]), StartWriteFile(k, m, script))
    case StartWriteFile(k, m, script) =>
      Decision(
        WriteScript(Overwrite(FileAt(w, id), Reaching(script, a))),
        if a.Ok? then StartSpawn(k, m) else Done(Failure(FailedToCreateFile)))
    case StartSpawn(k, m) =>
      if !IsStartable(m) then Fails(Panicked(KindField))
      else if !a.Spawned? || !(0 <= a.newPid < PID_LIMIT) || Taken(w, a.newPid) then Fails(FailedToStartIndexer(id))
      else Decision(SetProc(a.newPid, Proc(Sink(id), Alive, Some(CommandFor(w.cfg, m)))), StartRecord(k, m, a.newPid))
    case StartRecord(k, m, pid) =>
      var found := Found(w, id, a);
      if found.Failure? then Fails(found.error)
      else Decision(SetRow(found.value.(status := Running, processId := Some(pid))), Started(k))
  }

  function DecideStop(w: World, id: Uuid, pc: Pc, a: Answer): Decision
    requires IsStopPc(pc)
  {
    match pc
    case StopRead =>
      var found := Found(w, id, a);
      if found.Failure? then Fails(found.error)
      else if found.value.status != Running then Fails(InvalidIndexerStatus(found.value.status))
      else Goes(StopCheck(found.value))
    case StopCheck(m) =>
      if m.processId.None? then Goes(StopWrite(m, StatusAfterStop(Failure(InternalServerError(STOP_WITHOUT_PID)))))
      else
        var running := IsRunning(w, m, a);
        if running.Failure? then Goes(StopWrite(m, StatusAfterStop(Failure(running.error))))
        else if !running.value then
          Goes(StopWrite(m, StatusAfterStop(Failure(InternalServerError(NotRunningMessage(m.id))))))
        else Goes(StopKill(m, m.processId.value))
    case StopKill(m, pid) =>
      if !a.Ok? || !Taken(w, pid) then Goes(StopWrite(m, StatusAfterStop(Failure(FailedToStopIndexer(pid)))))
      else Decision(SetProc(pid, Signal(w.procs[pid])), StopWrite(m, StatusAfterStop(Success(()))))
    case StopWrite(_, target) =>
      var found := Found(w, id, a);
      if found.Failure? then Fails(found.error)
      else Decision(SetRow(found.value.(status := target)), Done(Success(None)))
  }

  function DecideFailOrDelete(w: World, id: Uuid, pc: Pc, a: Answer): Decision
    requires IsFailOrDeletePc(pc)
  {
    match pc
    case FailRead(k) =>
      var found := Found(w, id, a);
      if found.Failure? then Fails(found.error)
      else if found.value.status != Running then Fails(InvalidIndexerStatus(found.value.status))
      else Goes(FailWrite(k, found.value))
    case FailWrite(k, _) =>
      var found := Found(w, id, a);
      if found.Failure? then Fails(found.error)
      else Decision(SetRow(found.value.(status := FailedRunning)), Done(Success(k)))
    case DeleteRead =>
      var found := Found(w, id, a);
      if found.Failure? then Fails(found.error)
      else if found.value.status != Stopped then Fails(InvalidIndexerStatus(found.value.status))
      else Goes(DeleteWrite(found.value))
    case DeleteWrite(_) =>
      if !a.Ok? then Fails(InfraError(DbFailure)) else Decision(DropRow, Done(Success(None)))
  }

  function DecideUpdate(w: World, id: Uuid, pc: Pc, a: Answer): Decision
    requires IsUpdatePc(pc)
  {
    match pc
    case UpdateRead(target) =>
      var found := Found(w, id, a);
      if found.Failure? then Fails(found.error) else Goes(UpdateGate(id, found.value, target))
    case UpdateCheck(m, target) =>
      var running := IsRunning(w, m, a);
      if running.Failure? then Fails(running.error)
      else if running.value then Fails(InternalServerError(STILL_RUNNING))
      else Goes(UpdateWrite(m, target))
    case UpdateWrite(_, target) =>
      var found := Found(w, id, a);
      if found.Failure? then Fails(found.error)
      else Decision(SetRow(found.value.(status := target)), Done(Success(None)))
  }

  /** Insert and upload share a transaction: the row becomes visible only at the commit. */
  function DecideCreate(w: World, id: Uuid, pc: Pc, a: Answer): Decision
    requires IsCreatePc(pc)
  {
    match pc
    case CreateInsert(r) =>
      if a.Unconnected? then Fails(Panicked(PoolConnection))
      else if !a.Ok? then Fails(FailedToQueryDb)
      else Goes(CreateUpload(r))
    case CreateUpload(r) =>
      if !a.Ok? then Fails(FailedToUploadToStore) else Decision(PutScript(r.data), CreateCommit(r))
    case CreateCommit(r) =>
      if !a.Ok? then Fails(FailedToQueryDb) else Decision(SetRow(NewRow(id, r)), StartRead(Some(NewRow(id, r))))
    case CreateQuery(created) =>
      if created.statusServerPort.None? then Fails(StatusServerPortNotFound)
      else if !a.Reported? then Fails(StatusServerUnavailable)
      else if a.status != 1 then Goes(FailRead(Some(created)))
      else Goes(Done(Success(Some(created))))
  }

  /** One atomic step of a handler for `id`. */
  function Decide(w: World, id: Uuid, pc: Pc, a: Answer): Decision {
    if IsStartPc(pc) then DecideStart(w, id, pc, a)
    else if IsStopPc(pc) then DecideStop(w, id, pc, a)
    else if IsFailOrDeletePc(pc) then DecideFailOrDelete(w, id, pc, a)
    else if IsUpdatePc(pc) then DecideUpdate(w, id, pc, a)
    else if IsCreatePc(pc) then DecideCreate(w, id, pc, a)
    else Goes(pc)
  }

  /** Where a handler reads its row. */
  predicate IsRead(pc: Pc) {
    pc.StartRead? || pc.StopRead? || pc.FailRead? || pc.DeleteRead? || pc.UpdateRead?
  }

  /** The row a handler carries from its read to its write. */
  function SnapOf(pc: Pc): Option<IndexerModel> {
    match pc
    case StartCheck(_, m) => Some(m)
    case StartFetch(_, m) => Some(m)
    case StartCreateFile(_, m, _) => Some(m)
    case StartWriteFile(_, m, _) => Some(m)
    case StartSpawn(_, m) => Some(m)
    case StartRecord(_, m, _) => Some(m)
    case StopCheck(m) => Some(m)
    case StopKill(m, _) => Some(m)
    case StopWrite(m, _) => Some(m)
    case FailWrite(_, m) => Some(m)
    case DeleteWrite(m) => Some(m)
    case UpdateCheck(m, _) => Some(m)
    case UpdateWrite(m, _) => Some(m)
    case _ => None
  }

  /** The inserted row a creating handler carries. */
  function CreatingOf(pc: Pc): Option<IndexerModel> {
    match pc
    case StartRead(k) => k
    case StartCheck(k, _) => k
    case StartFetch(k, _) => k
    case StartCreateFile(k, _, _) => k
    case StartWriteFile(k, _, _) => k
    case StartSpawn(k, _) => k
    case StartRecord(k, _, _) => k
    case FailRead(k) => k
    case FailWrite(k, _) => k
    case CreateQuery(created) => Some(created)
    case _ => None
  }

  /** The statuses a handler at this point must have read. */
  predicate Gate(pc: Pc) {
    match pc
    case StartCheck(_, m) => m.status == Running
    case StartFetch(_, m) => m.status != FailedStopping
    case StartCreateFile(_, m, _) => m.status != FailedStopping
    case StartWriteFile(_, m, _) => m.status != FailedStopping
    case StartSpawn(_, m) => m.status != FailedStopping
    case StartRecord(_, m, _) => m.status != FailedStopping
    case StopCheck(m) => m.status == Running
    case StopKill(m, _) => m.status == Running
    case StopWrite(m, _) => m.status == Running
    case FailWrite(_, m) => m.status == Running
    case DeleteWrite(m) => m.status == Stopped
    case UpdateCheck(m, target) => m.status == Running || m.status == target
    case UpdateWrite(m, target) => m.status == Running || m.status == target
    case _ => true
  }
}
