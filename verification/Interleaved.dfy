/**
 * Any number of handlers in flight at once, for the same or different ids, with failing steps and
 * with handlers that are dropped at any point (a cancelled request, a panic, a crash of the service).
 */
module Interleaved {
  import opened Wrappers
  import opened Domain
  import opened Request
  import opened IndexerTypes
  import opened Protocol

  /** A handler call; number 0 of an id is the request that creates it. */
  datatype Ticket = Ticket(id: Uuid, n: nat)

  /** `born` remembers the request of every id ever generated. */
  datatype Sys = Sys(w: World, born: map<Uuid, CreateIndexerRequest>, flights: map<Ticket, Pc>)

  datatype Event =
    | Begin(t: Ticket, call: Pc)
    | Move(t: Ticket, answer: Answer)
    | End(t: Ticket)
    | Exit(pid: int, owner: Owner)
    | Reap(pid: int, owner: Owner)
    | Appear(pid: int)

  /**
   * The calls the handlers allow. The service itself makes neither a fail of its own, which only a creation
   * does as its last part, nor an update, which is documented for stopped states only.
   */
  predicate IsCall(pc: Pc) {
    match pc
    case StartRead(k) => k.None?
    case StopRead => true
    case FailRead(k) => k.None?
    case DeleteRead => true
    case UpdateRead(target) => target == Stopped || target == FailedStopping
    case CreateInsert(request) => Accepted(request)
    case _ => false
  }

  /** Ids of creating calls are fresh; a handler that is done or abandoned may end at any time. */
  predicate Enabled(s: Sys, e: Event) {
    match e
    case Begin(t, call) =>
      && t !in s.flights && IsCall(call)
      && (call.CreateInsert? <==> t.n == 0)
      && (call.CreateInsert? ==> t.id !in s.born && ScriptKey(t.id) !in s.w.store)
    case Move(t, _) => t in s.flights && !s.flights[t].Done?
    case End(t) => t in s.flights
    case Exit(pid, owner) => Live(s.w, pid) && s.w.procs[pid].owner == owner
    case Reap(pid, owner) => pid in s.w.procs && s.w.procs[pid].state == Zombie && s.w.procs[pid].owner == owner
    case Appear(pid) => !Taken(s.w, pid)
  }

  function IdOf(e: Event): Uuid {
    if e.Begin? || e.Move? || e.End? then e.t.id else 0
  }

  function EffectOf(s: Sys, e: Event): Effect
    requires Enabled(s, e)
  {
    match e
    case Begin(_, _) => NoEffect
    case Move(t, a) => Decide(s.w, t.id, s.flights[t], a).effect
    case End(_) => NoEffect
    case Exit(pid, _) => SetProc(pid, s.w.procs[pid].(state := Zombie))
    case Reap(pid, _) => SetProc(pid, s.w.procs[pid].(state := Gone))
    case Appear(pid) => SetProc(pid, Proc(Foreign, Alive, None))
  }

  function FlightsAfter(s: Sys, e: Event): map<Ticket, Pc>
    requires Enabled(s, e)
  {
    match e
    case Begin(t, call) => s.flights[t := call]
    case Move(t, a) => s.flights[t := Decide(s.w, t.id, s.flights[t], a).pc]
    case End(t) => s.flights - {t}
    case _ => s.flights
  }

  function BornAfter(s: Sys, e: Event): map<Uuid, CreateIndexerRequest> {
    if e.Begin? && e.call.CreateInsert? then s.born[e.t.id := e.call.request] else s.born
  }

  /** Events that are not enabled do nothing. */
  function Next(s: Sys, e: Event): Sys {
    if Enabled(s, e) then Sys(Apply(s.w, IdOf(e), EffectOf(s, e)), BornAfter(s, e), FlightsAfter(s, e)) else s
  }

  function Run(s: Sys, es: seq<Event>): Sys
    decreases |es|
  {
    if es == [] then s else Run(Next(s, es[0]), es[1..])
  }

  lemma {:induction false} RunOfConcat(s: Sys, es: seq<Event>, fs: seq<Event>)
    ensures Run(s, es + fs) == Run(Run(s, es), fs)
    decreases |es|
  {
    if es == [] {
      assert es + fs == fs;
    } else {
      RunOfConcat(Next(s, es[0]), es[1..], fs);
      assert (es + fs)[0] == es[0] && (es + fs)[1..] == es[1..] + fs;
    }
  }

  lemma RunOneMore(s: Sys, es: seq<Event>, i: nat)
    requires i < |es|
    ensures Run(s, es[..i + 1]) == Next(Run(s, es[..i]), es[i])
  {
    RunOfConcat(s, es[..i], [es[i]]);
    assert es[..i + 1] == es[..i] + [es[i]];
    assert Run(Run(s, es[..i]), [es[i]]) == Run(Next(Run(s, es[..i]), es[i]), []);
  }

  // -------------------------------------------------------------------------
  // The inductive invariant
  // -------------------------------------------------------------------------

  /** A row of `id` is what was inserted, but for its status and pid; it has a pid once it left Created. */
  predicate RowOk(m: IndexerModel, id: Uuid, r: CreateIndexerRequest) {
    && SameIdentity(NewRow(id, r), m)
    && (m.status == Created <==> m.processId.None?)
    && (m.processId.Some? ==> 0 <= m.processId.value < PID_LIMIT)
  }

  predicate HasScript(s: Sys, id: Uuid) {
    id in s.born && ScriptKey(id) in s.w.store && s.w.store[ScriptKey(id)] == s.born[id].data
  }

  predicate TableOk(s: Sys) {
    forall id | id in s.w.table :: HasScript(s, id) && RowOk(s.w.table[id], id, s.born[id])
  }

  /** A stored script is the one uploaded when its id was created. */
  predicate StoreOk(s: Sys) {
    forall id | id in s.born && ScriptKey(id) in s.w.store :: s.w.store[ScriptKey(id)] == s.born[id].data
  }

  predicate ProcOk(s: Sys, p: Proc) {
    p.owner.Sink? ==>
      && p.owner.id in s.born
      && Accepted(s.born[p.owner.id])
      && p.command == Some(CommandFor(s.w.cfg, NewRow(p.owner.id, s.born[p.owner.id])))
  }

  /** What a handler carries is a row its id really had, and pids never get lost from rows. */
  predicate SnapOk(s: Sys, id: Uuid, m: IndexerModel) {
    && id in s.born && RowOk(m, id, s.born[id])
    && (m.processId.Some? && id in s.w.table ==> s.w.table[id].processId.Some?)
  }

  /** The temporary script file of an id holds a beginning of the script uploaded for it. */
  predicate HasPart(s: Sys, id: Uuid) {
    var path := ScriptTmpPath(s.w.cfg.tmp, id);
    id in s.born && path in s.w.files && s.w.files[path] <= s.born[id].data
  }

  /** ... or the whole script. */
  predicate HasFile(s: Sys, id: Uuid) {
    HasPart(s, id) && s.w.files[ScriptTmpPath(s.w.cfg.tmp, id)] == s.born[id].data
  }

  predicate IsEarlyCreate(pc: Pc) {
    pc.CreateInsert? || pc.CreateUpload? || pc.CreateCommit?
  }

  /** Errors no reachable handler returns. */
  predicate IsImpossible(e: IndexerError) {
    e in {Panicked(KindField), StatusServerPortNotFound, InternalServerError(CHECK_WITHOUT_PID)}
  }

  predicate PcOk(s: Sys, t: Ticket, pc: Pc) {
    && Gate(pc)
    && (SnapOf(pc).Some? ==> SnapOk(s, t.id, SnapOf(pc).value))
    && (CreatingOf(pc).Some? ==> t.n == 0 && t.id in s.born && CreatingOf(pc).value == NewRow(t.id, s.born[t.id]))
    && (IsEarlyCreate(pc) ==> t.n == 0 && t.id in s.born && s.born[t.id] == pc.request && t.id !in s.w.table)
    && match pc
       case CreateCommit(_) => HasScript(s, t.id)
       case StartCreateFile(_, _, script) => script == s.born[t.id].data
       case StartWriteFile(_, _, script) => script == s.born[t.id].data && HasPart(s, t.id)
       case StartSpawn(_, _) => HasPart(s, t.id)
       case StartRecord(_, _, pid) => 0 <= pid < PID_LIMIT
       case StopKill(m, pid) => m.processId == Some(pid)
       case StopWrite(_, target) => target == Stopped || target == FailedStopping
       case UpdateRead(target) => target == Stopped || target == FailedStopping
       case UpdateCheck(_, target) => target == Stopped || target == FailedStopping
       case UpdateWrite(_, target) => target == Stopped || target == FailedStopping
       case Done(Failure(e)) => !IsImpossible(e)
       case _ => true
  }

  predicate FlightsOk(s: Sys) {
    forall t | t in s.flights :: PcOk(s, t, s.flights[t])
  }

  /** While an id is being created nobody has read a row of it. */
  predicate CreatorsOk(s: Sys) {
    forall t, u | t in s.flights && u in s.flights && t.id == u.id && IsEarlyCreate(s.flights[t]) ::
      SnapOf(s.flights[u]).None?
  }

  predicate Inv(s: Sys) {
    && (forall id | id in s.born :: Accepted(s.born[id]))
    && (forall p | p in s.w.procs :: ProcOk(s, s.w.procs[p]))
    && TableOk(s)
    && StoreOk(s)
    && FlightsOk(s)
    && CreatorsOk(s)
  }

  /** The service before its first request: nothing but foreign processes. */
  predicate Init(s: Sys) {
    && s.w.table == map[] && s.born == map[] && s.flights == map[]
    && forall p | p in s.w.procs :: s.w.procs[p].owner == Foreign
  }

  lemma InitInv(s: Sys)
    requires Init(s)
    ensures Inv(s)
  {
  }

  // -------------------------------------------------------------------------
  // Preservation
  // -------------------------------------------------------------------------

  /** What a handler's effect may be. */
  predicate EffectOk(s: Sys, t: Ticket, e: Effect)
    requires t in s.flights
  {
    match e
    case SetRow(row) =>
      && HasScript(s, t.id) && RowOk(row, t.id, s.born[t.id])
      && (t.id in s.w.table ==> s.w.table[t.id].processId.Some? ==> row.processId.Some?)
      && (t.id !in s.w.table ==> s.flights[t].CreateCommit?)
    case PutScript(bytes) => s.flights[t].CreateUpload? && t.id in s.born && bytes == s.born[t.id].data
    case WriteScript(bytes) => t.id in s.born && bytes <= s.born[t.id].data
    case SetProc(_, proc) => ProcOk(s, proc)
    case _ => true
  }

  lemma StopStatus(id: Uuid, pid: int)
    ensures StatusAfterStop(Failure(InternalServerError(NotRunningMessage(id)))) == Stopped
    ensures StatusAfterStop(Failure(FailedToStopIndexer(pid))) == FailedStopping
    ensures StatusAfterStop(Success(())) == Stopped
  {
    SubstringTestIsExact(NotRunningMessage(id), id);
  }

  /** What a step needs of the invariant. */
  predicate Basis(s: Sys, t: Ticket) {
    && t in s.flights && PcOk(s, t, s.flights[t])
    && TableOk(s)
    && (t.id in s.born && ScriptKey(t.id) in s.w.store ==> HasScript(s, t.id))
    && (t.id in s.born ==> Accepted(s.born[t.id]))
  }

  lemma FoundOk(s: Sys, id: Uuid, a: Answer)
    requires TableOk(s)
    ensures var found := Found(s.w, id, a);
            && (found.Success? ==>
                  id in s.w.table && found.value == s.w.table[id] && HasScript(s, id) && SnapOk(s, id, found.value))
            && (found.Failure? ==> !IsImpossible(found.error))
  {
  }

  lemma RowUpdateOk(s: Sys, t: Ticket, status: IndexerStatus, pid: Option<int>)
    requires TableOk(s) && t in s.flights && t.id in s.w.table
    requires status != Created && pid.Some? && 0 <= pid.value < PID_LIMIT
    ensures EffectOk(s, t, SetRow(s.w.table[t.id].(status := status, processId := pid)))
  {
  }

  /** A handler past its read that finds the row finds it with a pid. */
  lemma StatusUpdateOk(s: Sys, t: Ticket, status: IndexerStatus)
    requires Basis(s, t) && t.id in s.w.table && status != Created
    requires SnapOf(s.flights[t]).Some? && SnapOf(s.flights[t]).value.status != Created
    ensures EffectOk(s, t, SetRow(s.w.table[t.id].(status := status)))
  {
    var row := s.w.table[t.id];
    assert row.processId.Some?;
    RowUpdateOk(s, t, status, row.processId);
    assert row.(status := status) == row.(status := status, processId := row.processId);
  }

  lemma StartGateOk(s: Sys, t: Ticket, k: Option<IndexerModel>)
    requires TableOk(s) && t.id in s.w.table
    requires k.Some? ==> t.n == 0 && t.id in s.born && k.value == NewRow(t.id, s.born[t.id])
    ensures PcOk(s, t, StartGate(k, s.w.table[t.id]))
  {
    FoundOk(s, t.id, Ok);
  }

  lemma StartReadPcOk(s: Sys, t: Ticket, a: Answer)
    requires Basis(s, t) && s.flights[t].StartRead?
    ensures PcOk(s, t, DecideStart(s.w, t.id, s.flights[t], a).pc)
  {
    if a.Ok? && t.id in s.w.table {
      StartGateOk(s, t, s.flights[t].creating);
    }
  }

  lemma StartedOk(s: Sys, t: Ticket, k: Option<IndexerModel>)
    requires k.Some? ==> t.n == 0 && t.id in s.born && k.value == NewRow(t.id, s.born[t.id])
    ensures PcOk(s, t, Started(k))
  {
  }

  lemma StartCheckPcOk(s: Sys, t: Ticket, a: Answer)
    requires Basis(s, t) && s.flights[t].StartCheck?
    ensures PcOk(s, t, DecideStart(s.w, t.id, s.flights[t], a).pc)
  {
    StartedOk(s, t, s.flights[t].creating);
  }

  lemma StartFetchPcOk(s: Sys, t: Ticket, a: Answer)
    requires Basis(s, t) && s.flights[t].StartFetch?
    ensures PcOk(s, t, DecideStart(s.w, t.id, s.flights[t], a).pc)
  {
  }

  predicate IsFilePc(pc: Pc) {
    pc.StartCreateFile? || pc.StartWriteFile?
  }

  lemma StartCreateFileOk(s: Sys, t: Ticket, a: Answer, s': Sys)
    requires Basis(s, t) && s.flights[t].StartCreateFile?
    requires s'.w == Apply(s.w, t.id, DecideStart(s.w, t.id, s.flights[t], a).effect) && s'.born == s.born
    ensures EffectOk(s, t, DecideStart(s.w, t.id, s.flights[t], a).effect)
    ensures PcOk(s', t, DecideStart(s.w, t.id, s.flights[t], a).pc)
  {
  }

  /** Writing from the start over a beginning of the script leaves a beginning of the script. */
  lemma OverwriteIsPart(file: Bytes, script: Bytes, a: Answer)
    requires file <= script
    ensures Overwrite(file, Reaching(script, a)) <= script
  {
  }

  lemma StartWriteFileOk(s: Sys, t: Ticket, a: Answer, s': Sys)
    requires Basis(s, t) && s.flights[t].StartWriteFile?
    requires s'.w == Apply(s.w, t.id, DecideStart(s.w, t.id, s.flights[t], a).effect) && s'.born == s.born
    ensures EffectOk(s, t, DecideStart(s.w, t.id, s.flights[t], a).effect)
    ensures PcOk(s', t, DecideStart(s.w, t.id, s.flights[t], a).pc)
  {
    OverwriteIsPart(FileAt(s.w, t.id), s.born[t.id].data, a);
  }

  lemma StartFileOk(s: Sys, t: Ticket, a: Answer, s': Sys)
    requires Basis(s, t) && IsFilePc(s.flights[t])
    requires s'.w == Apply(s.w, t.id, DecideStart(s.w, t.id, s.flights[t], a).effect) && s'.born == s.born
    ensures EffectOk(s, t, DecideStart(s.w, t.id, s.flights[t], a).effect)
    ensures PcOk(s', t, DecideStart(s.w, t.id, s.flights[t], a).pc)
  {
    if s.flights[t].StartCreateFile? {
      StartCreateFileOk(s, t, a, s');
    } else {
      StartWriteFileOk(s, t, a, s');
    }
  }

  lemma StartSpawnOk(s: Sys, t: Ticket, a: Answer)
    requires Basis(s, t) && s.flights[t].StartSpawn?
    ensures var d := DecideStart(s.w, t.id, s.flights[t], a); EffectOk(s, t, d.effect) && PcOk(s, t, d.pc)
  {
    CommandIgnoresUpdates(s.w.cfg, NewRow(t.id, s.born[t.id]), s.flights[t].snap);
  }

  lemma StartRecordPcOk(s: Sys, t: Ticket, a: Answer)
    requires Basis(s, t) && s.flights[t].StartRecord?
    ensures PcOk(s, t, DecideStart(s.w, t.id, s.flights[t], a).pc)
  {
    FoundOk(s, t.id, a);
    StartedOk(s, t, s.flights[t].creating);
  }

  lemma StartRecordEffectOk(s: Sys, t: Ticket, a: Answer)
    requires Basis(s, t) && s.flights[t].StartRecord?
    ensures EffectOk(s, t, DecideStart(s.w, t.id, s.flights[t], a).effect)
  {
    if t.id in s.w.table {
      RowUpdateOk(s, t, Running, Some(s.flights[t].pid));
    }
  }

  lemma StopReadPcOk(s: Sys, t: Ticket, a: Answer)
    requires Basis(s, t) && (s.flights[t].StopRead? || s.flights[t].StopWrite?)
    ensures PcOk(s, t, DecideStop(s.w, t.id, s.flights[t], a).pc)
  {
    FoundOk(s, t.id, a);
  }

  lemma StopCheckPcOk(s: Sys, t: Ticket, a: Answer)
    requires Basis(s, t) && s.flights[t].StopCheck?
    ensures PcOk(s, t, DecideStop(s.w, t.id, s.flights[t], a).pc)
  {
    StopStatus(s.flights[t].snap.id, 0);
  }

  lemma StopKillPcOk(s: Sys, t: Ticket, a: Answer)
    requires Basis(s, t) && s.flights[t].StopKill?
    ensures PcOk(s, t, DecideStop(s.w, t.id, s.flights[t], a).pc)
  {
    StopStatus(t.id, s.flights[t].pid);
  }

  lemma StopEffectOk(s: Sys, t: Ticket, a: Answer)
    requires Basis(s, t) && IsStopPc(s.flights[t])
    requires forall p | p in s.w.procs :: ProcOk(s, s.w.procs[p])
    ensures EffectOk(s, t, DecideStop(s.w, t.id, s.flights[t], a).effect)
  {
    if s.flights[t].StopWrite? && t.id in s.w.table {
      StatusUpdateOk(s, t, s.flights[t].target);
    }
  }

  lemma FailPcOk(s: Sys, t: Ticket, a: Answer)
    requires Basis(s, t) && (s.flights[t].FailRead? || s.flights[t].FailWrite?)
    ensures PcOk(s, t, DecideFailOrDelete(s.w, t.id, s.flights[t], a).pc)
  {
    FoundOk(s, t.id, a);
  }

  lemma DeletePcOk(s: Sys, t: Ticket, a: Answer)
    requires Basis(s, t) && s.flights[t].DeleteRead?
    ensures PcOk(s, t, DecideFailOrDelete(s.w, t.id, s.flights[t], a).pc)
  {
    FoundOk(s, t.id, a);
  }

  lemma FailOrDeletePcOk(s: Sys, t: Ticket, a: Answer)
    requires Basis(s, t) && IsFailOrDeletePc(s.flights[t])
    ensures PcOk(s, t, DecideFailOrDelete(s.w, t.id, s.flights[t], a).pc)
  {
    if s.flights[t].FailRead? || s.flights[t].FailWrite? {
      FailPcOk(s, t, a);
    } else if s.flights[t].DeleteRead? {
      DeletePcOk(s, t, a);
    }
  }

  lemma FailOrDeleteEffectOk(s: Sys, t: Ticket, a: Answer)
    requires Basis(s, t) && IsFailOrDeletePc(s.flights[t])
    ensures EffectOk(s, t, DecideFailOrDelete(s.w, t.id, s.flights[t], a).effect)
  {
    if s.flights[t].FailWrite? && t.id in s.w.table {
      StatusUpdateOk(s, t, FailedRunning);
    }
  }

  lemma RefusalIsPossible(from: IndexerStatus, to: IndexerStatus, id: Uuid)
    ensures !IsImpossible(InternalServerError(CannotMoveMessage(from, to, id)))
    ensures !IsImpossible(InternalServerError(STILL_RUNNING))
  {
    assert CannotMoveMessage(from, to, id)[7] == 'm' && CHECK_WITHOUT_PID[7] == 'c' && STILL_RUNNING[7] == 's';
  }

  lemma UpdateGateOk(s: Sys, t: Ticket, target: IndexerStatus)
    requires TableOk(s) && t.id in s.w.table && (target == Stopped || target == FailedStopping)
    ensures PcOk(s, t, UpdateGate(t.id, s.w.table[t.id], target))
  {
    FoundOk(s, t.id, Ok);
    RefusalIsPossible(s.w.table[t.id].status, target, t.id);
  }

  lemma UpdateReadPcOk(s: Sys, t: Ticket, a: Answer)
    requires Basis(s, t) && s.flights[t].UpdateRead?
    ensures PcOk(s, t, DecideUpdate(s.w, t.id, s.flights[t], a).pc)
  {
    FoundOk(s, t.id, a);
    if a.Ok? && t.id in s.w.table {
      UpdateGateOk(s, t, s.flights[t].target);
    }
  }

  lemma UpdateCheckPcOk(s: Sys, t: Ticket, a: Answer)
    requires Basis(s, t) && s.flights[t].UpdateCheck?
    ensures PcOk(s, t, DecideUpdate(s.w, t.id, s.flights[t], a).pc)
  {
    RefusalIsPossible(Stopped, Stopped, t.id);
  }

  lemma UpdateWritePcOk(s: Sys, t: Ticket, a: Answer)
    requires Basis(s, t) && s.flights[t].UpdateWrite?
    ensures PcOk(s, t, DecideUpdate(s.w, t.id, s.flights[t], a).pc)
  {
    FoundOk(s, t.id, a);
  }

  lemma UpdateEffectOk(s: Sys, t: Ticket, a: Answer)
    requires Basis(s, t) && IsUpdatePc(s.flights[t])
    ensures EffectOk(s, t, DecideUpdate(s.w, t.id, s.flights[t], a).effect)
  {
    if s.flights[t].UpdateWrite? && t.id in s.w.table {
      StatusUpdateOk(s, t, s.flights[t].target);
    }
  }

  lemma CreateEffectOk(s: Sys, t: Ticket, a: Answer)
    requires Basis(s, t) && IsCreatePc(s.flights[t])
    ensures EffectOk(s, t, DecideCreate(s.w, t.id, s.flights[t], a).effect)
  {
  }

  lemma CreatePcOk(s: Sys, t: Ticket, a: Answer)
    requires Basis(s, t) && IsCreatePc(s.flights[t])
    ensures var pc := DecideCreate(s.w, t.id, s.flights[t], a).pc;
            PcOk(s, t, pc) || (s.flights[t].CreateUpload? && pc == CreateCommit(s.flights[t].request))
  {
  }

  lemma StartPcOk(s: Sys, t: Ticket, a: Answer)
    requires Basis(s, t) && IsStartPc(s.flights[t]) && !IsFilePc(s.flights[t])
    ensures PcOk(s, t, DecideStart(s.w, t.id, s.flights[t], a).pc)
  {
    match s.flights[t] {
      case StartRead(_) => StartReadPcOk(s, t, a);
      case StartCheck(_, _) => StartCheckPcOk(s, t, a);
      case StartFetch(_, _) => StartFetchPcOk(s, t, a);
      case StartSpawn(_, _) => StartSpawnOk(s, t, a);
      case StartRecord(_, _, _) => StartRecordPcOk(s, t, a);
    }
  }

  lemma StopPcOk(s: Sys, t: Ticket, a: Answer)
    requires Basis(s, t) && IsStopPc(s.flights[t])
    ensures PcOk(s, t, DecideStop(s.w, t.id, s.flights[t], a).pc)
  {
    match s.flights[t] {
      case StopCheck(_) => StopCheckPcOk(s, t, a);
      case StopKill(_, _) => StopKillPcOk(s, t, a);
      case _ => StopReadPcOk(s, t, a);
    }
  }

  lemma PcOkAfterDecision(s: Sys, t: Ticket, a: Answer)
    requires Basis(s, t) && !s.flights[t].Done? && !IsCreatePc(s.flights[t]) && !IsFilePc(s.flights[t])
    ensures PcOk(s, t, Decide(s.w, t.id, s.flights[t], a).pc)
  {
    var pc := s.flights[t];
    if IsStartPc(pc) {
      StartPcOk(s, t, a);
    } else if IsStopPc(pc) {
      StopPcOk(s, t, a);
    } else if IsFailOrDeletePc(pc) {
      FailOrDeletePcOk(s, t, a);
    } else if pc.UpdateRead? {
      UpdateReadPcOk(s, t, a);
    } else if pc.UpdateCheck? {
      UpdateCheckPcOk(s, t, a);
    } else {
      UpdateWritePcOk(s, t, a);
    }
  }

  lemma EffectOkOfDecision(s: Sys, t: Ticket, a: Answer)
    requires Basis(s, t) && !s.flights[t].Done?
    requires forall p | p in s.w.procs :: ProcOk(s, s.w.procs[p])
    ensures EffectOk(s, t, Decide(s.w, t.id, s.flights[t], a).effect)
  {
    var pc := s.flights[t];
    if IsFilePc(pc) {
      StartFileOk(s, t, a, s.(w := Apply(s.w, t.id, DecideStart(s.w, t.id, pc, a).effect)));
    } else if pc.StartSpawn? {
      StartSpawnOk(s, t, a);
    } else if pc.StartRecord? {
      StartRecordEffectOk(s, t, a);
    } else if IsStopPc(pc) {
      StopEffectOk(s, t, a);
    } else if IsFailOrDeletePc(pc) {
      FailOrDeleteEffectOk(s, t, a);
    } else if IsUpdatePc(pc) {
      UpdateEffectOk(s, t, a);
    } else if IsCreatePc(pc) {
      CreateEffectOk(s, t, a);
    }
  }

  /** An allowed effect leaves what is allowed of another point allowed, for every id. */
  lemma PcOkStable(s: Sys, actor: Ticket, e: Effect, s': Sys, t: Ticket, pc: Pc)
    requires actor in s.flights && EffectOk(s, actor, e) && PcOk(s, actor, s.flights[actor]) && PcOk(s, t, pc)
    requires t.id == actor.id && s.flights[actor].CreateCommit? ==> SnapOf(pc).None? && !IsEarlyCreate(pc)
    requires s'.w == Apply(s.w, actor.id, e) && s'.born == s.born
    ensures PcOk(s', t, pc)
  {
    KeysInjective(s.w.cfg.tmp, t.id, actor.id);
  }

  lemma RowsStable(s: Sys, actor: Ticket, e: Effect, s': Sys)
    requires TableOk(s) && StoreOk(s) && actor in s.flights && EffectOk(s, actor, e)
    requires s'.w == Apply(s.w, actor.id, e) && s'.born == s.born
    ensures TableOk(s') && StoreOk(s')
  {
    forall id | id in s.born ensures ScriptKey(id) == ScriptKey(actor.id) <==> id == actor.id {
      KeysInjective(s.w.cfg.tmp, id, actor.id);
    }
  }

  lemma OwnCreatePcOk(s: Sys, t: Ticket, a: Answer, s': Sys)
    requires Basis(s, t) && IsCreatePc(s.flights[t])
    requires s'.w == Apply(s.w, t.id, DecideCreate(s.w, t.id, s.flights[t], a).effect) && s'.born == s.born
    ensures PcOk(s', t, DecideCreate(s.w, t.id, s.flights[t], a).pc)
  {
    var d := DecideCreate(s.w, t.id, s.flights[t], a);
    CreateEffectOk(s, t, a);
    CreatePcOk(s, t, a);
    if !d.pc.CreateCommit? {
      PcOkStable(s, t, d.effect, s', t, d.pc);
    }
  }

  lemma OwnPcOk(s: Sys, t: Ticket, a: Answer)
    requires Basis(s, t) && !s.flights[t].Done?
    requires forall p | p in s.w.procs :: ProcOk(s, s.w.procs[p])
    ensures PcOk(Next(s, Move(t, a)), t, Decide(s.w, t.id, s.flights[t], a).pc)
  {
    var d, s' := Decide(s.w, t.id, s.flights[t], a), Next(s, Move(t, a));
    if IsFilePc(s.flights[t]) {
      StartFileOk(s, t, a, s');
    } else if IsCreatePc(s.flights[t]) {
      OwnCreatePcOk(s, t, a, s');
    } else {
      EffectOkOfDecision(s, t, a);
      PcOkAfterDecision(s, t, a);
      PcOkStable(s, t, d.effect, s', t, d.pc);
    }
  }

  /** A handler's row is the one it already carried, or the one the table shows right now. */
  lemma SnapIsReadOrKept(w: World, id: Uuid, pc: Pc, a: Answer)
    ensures var after := SnapOf(Decide(w, id, pc, a).pc);
            after.Some? ==>
              || after == SnapOf(pc)
              || (SnapOf(pc).None? && IsRead(pc) && a.Ok? && id in w.table && after.value == w.table[id])
  {
  }

  lemma EarlyStaysEarly(w: World, id: Uuid, pc: Pc, a: Answer)
    requires IsEarlyCreate(Decide(w, id, pc, a).pc)
    ensures IsEarlyCreate(pc)
  {
  }

  lemma CreatorsKept(s: Sys, t: Ticket, a: Answer)
    requires Inv(s) && Enabled(s, Move(t, a))
    ensures CreatorsOk(Next(s, Move(t, a)))
  {
    var s' := Next(s, Move(t, a));
    forall x, y | x in s'.flights && y in s'.flights && x.id == y.id && IsEarlyCreate(s'.flights[x])
      ensures SnapOf(s'.flights[y]).None?
    {
      if x == t {
        EarlyStaysEarly(s.w, t.id, s.flights[t], a);
      }
      assert PcOk(s, x, s.flights[x]);
      if y == t {
        SnapIsReadOrKept(s.w, t.id, s.flights[t], a);
      }
    }
  }

  /** Every step of every handler keeps the invariant. */
  lemma MoveKeepsInv(s: Sys, t: Ticket, a: Answer)
    requires Inv(s) && Enabled(s, Move(t, a))
    ensures Inv(Next(s, Move(t, a)))
  {
    assert Basis(s, t);
    var d, s' := Decide(s.w, t.id, s.flights[t], a), Next(s, Move(t, a));
    EffectOkOfDecision(s, t, a);
    RowsStable(s, t, d.effect, s');
    OwnPcOk(s, t, a);
    forall u | u in s'.flights ensures PcOk(s', u, s'.flights[u]) {
      if u != t {
        assert PcOk(s, u, s.flights[u]) && PcOk(s, t, s.flights[t]);
        PcOkStable(s, t, d.effect, s', u, s.flights[u]);
      }
    }
    CreatorsKept(s, t, a);
    assert forall p | p in s'.w.procs :: ProcOk(s', s'.w.procs[p]);
  }

  lemma BeginKeepsPoints(s: Sys, t: Ticket, call: Pc, u: Ticket)
    requires u in s.flights && PcOk(s, u, s.flights[u]) && Enabled(s, Begin(t, call))
    ensures PcOk(Next(s, Begin(t, call)), u, s.flights[u])
  {
  }

  lemma BeginIsOk(s: Sys, t: Ticket, call: Pc)
    requires TableOk(s) && Enabled(s, Begin(t, call))
    ensures PcOk(Next(s, Begin(t, call)), t, call)
  {
  }

  lemma BeginKeepsCreators(s: Sys, t: Ticket, call: Pc)
    requires CreatorsOk(s) && FlightsOk(s) && Enabled(s, Begin(t, call))
    ensures CreatorsOk(Next(s, Begin(t, call)))
  {
    var s' := Next(s, Begin(t, call));
    forall x, y | x in s'.flights && y in s'.flights && x.id == y.id && IsEarlyCreate(s'.flights[x])
      ensures SnapOf(s'.flights[y]).None?
    {
      if y != t {
        assert PcOk(s, y, s.flights[y]);
      }
    }
  }

  lemma BeginKeepsStores(s: Sys, t: Ticket, call: Pc)
    requires Inv(s) && Enabled(s, Begin(t, call))
    ensures var s' := Next(s, Begin(t, call));
            && (forall id | id in s'.born :: Accepted(s'.born[id]))
            && (forall p | p in s'.w.procs :: ProcOk(s', s'.w.procs[p]))
            && TableOk(s') && StoreOk(s')
  {
  }

  /** Starting a call keeps the invariant: a creating call's id is fresh. */
  lemma BeginKeepsInv(s: Sys, t: Ticket, call: Pc)
    requires Inv(s) && Enabled(s, Begin(t, call))
    ensures Inv(Next(s, Begin(t, call)))
  {
    var s' := Next(s, Begin(t, call));
    BeginIsOk(s, t, call);
    BeginKeepsCreators(s, t, call);
    BeginKeepsStores(s, t, call);
    forall u | u in s'.flights ensures PcOk(s', u, s'.flights[u]) {
      if u != t {
        BeginKeepsPoints(s, t, call, u);
      }
    }
  }

  lemma NextKeepsInv(s: Sys, e: Event)
    requires Inv(s)
    ensures Inv(Next(s, e))
  {
    if Enabled(s, e) {
      match e {
        case Begin(t, call) => BeginKeepsInv(s, t, call);
        case Move(t, a) => MoveKeepsInv(s, t, a);
        case _ => OutsideKeepsInv(s, e);
      }
    }
  }

  /** An ending handler, or a process of the outside world, changes no row, script or file. */
  lemma OutsideKeepsStores(s: Sys, e: Event)
    requires Enabled(s, e) && !e.Begin? && !e.Move?
    ensures var s' := Next(s, e);
            && s' == s.(w := s.w.(procs := s'.w.procs), flights := s'.flights)
            && (forall t | t in s'.flights :: t in s.flights && s'.flights[t] == s.flights[t])
  {
  }

  lemma OutsideKeepsProcs(s: Sys, e: Event)
    requires Enabled(s, e) && !e.Begin? && !e.Move?
    requires forall p | p in s.w.procs :: ProcOk(s, s.w.procs[p])
    ensures forall p | p in Next(s, e).w.procs :: ProcOk(Next(s, e), Next(s, e).w.procs[p])
  {
  }

  lemma PcOkIgnoresProcs(s: Sys, s': Sys, t: Ticket, pc: Pc)
    requires s' == s.(w := s.w.(procs := s'.w.procs), flights := s'.flights) && PcOk(s, t, pc)
    ensures PcOk(s', t, pc)
  {
  }

  lemma OutsideKeepsInv(s: Sys, e: Event)
    requires Inv(s) && Enabled(s, e) && !e.Begin? && !e.Move?
    ensures Inv(Next(s, e))
  {
    var s' := Next(s, e);
    OutsideKeepsStores(s, e);
    OutsideKeepsProcs(s, e);
    forall u | u in s'.flights ensures PcOk(s', u, s'.flights[u]) {
      PcOkIgnoresProcs(s, s', u, s.flights[u]);
    }
  }

  lemma {:induction false} RunKeepsInv(s: Sys, es: seq<Event>)
    requires Inv(s)
    ensures Inv(Run(s, es))
    decreases |es|
  {
    if es == [] {
    } else {
      NextKeepsInv(s, es[0]);
      RunKeepsInv(Next(s, es[0]), es[1..]);
    }
  }
}
