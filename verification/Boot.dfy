/** Boot-time recovery: every row marked Running is started again, one after the other. */
module Boot {
  import opened Wrappers
  import opened Domain
  import opened Request
  import opened Protocol
  import opened Interleaved
  import opened Serial

  /** One turn of the loop. */
  function Turn(w: World, id: Uuid, io: Uuid -> Answers): World {
    Complete(w, id, StartRead(None), io(id)).w
  }

  /** The recovery loop over rows in the order the database returned them; failures are ignored. */
  function StartEach(w: World, ids: seq<Uuid>, io: Uuid -> Answers): World
    decreases |ids|
  {
    if ids == [] then w
    else StartEach(Turn(w, ids[0], io), ids[1..], io)
  }

  predicate Distinct(ids: seq<Uuid>) {
    forall i, j | 0 <= i < j < |ids| :: ids[i] != ids[j]
  }

  function StalePid(w: World, id: Uuid): int
    requires IsRunningRow(w, id)
  {
    w.table[id].processId.value
  }

  /** A Running row as the invariant guarantees it. */
  predicate IsRunningRow(w: World, id: Uuid) {
    CanFetch(w, id) && w.table[id].status == Running && w.table[id].processId.Some?
  }

  predicate AllRunningRows(w: World, ids: seq<Uuid>) {
    Distinct(ids) && forall i | 0 <= i < |ids| :: IsRunningRow(w, ids[i])
  }

  /** In every reachable state the rows marked Running are what the loop needs: no step lacks a pid or a script. */
  lemma ReachableRowsAreRecoverable(s: Sys, es: seq<Event>, ids: seq<Uuid>)
    requires Init(s) && Distinct(ids)
    requires forall id | id in ids :: id in Run(s, es).w.table && Run(s, es).w.table[id].status == Running
    ensures AllRunningRows(Run(s, es).w, ids)
  {
    InitInv(s);
    RunKeepsInv(s, es);
    var s' := Run(s, es);
    forall i | 0 <= i < |ids| ensures IsRunningRow(s'.w, ids[i]) {
      assert ids[i] in ids;
      assert HasScript(s', ids[i]) && RowOk(s'.w.table[ids[i]], ids[i], s'.born[ids[i]]) && Accepted(s'.born[ids[i]]);
    }
  }

  /** No step fails, and each spawn gets a pid that no process holds at that moment. */
  predicate Smooth(w: World, ids: seq<Uuid>, io: Uuid -> Answers)
    decreases |ids|
  {
    ids == [] ||
    (&& io(ids[0]).failing == {}
     && 0 <= io(ids[0]).pid < PID_LIMIT && !Taken(w, io(ids[0]).pid)
     && Smooth(Turn(w, ids[0], io), ids[1..], io))
  }

  /** The row is Running and records a live process of its own. */
  predicate HasOwnProcess(w: World, id: Uuid) {
    && id in w.table && w.table[id].status == Running && w.table[id].processId.Some?
    && Live(w, w.table[id].processId.value) && w.procs[w.table[id].processId.value].owner == Sink(id)
  }

  /** The recorded process survived: it is alive, and the row's own. */
  predicate RecordedLives(w: World, id: Uuid)
    requires IsRunningRow(w, id)
  {
    Live(w, StalePid(w, id)) && w.procs[StalePid(w, id)].owner == Sink(id)
  }

  // -------------------------------------------------------------------------
  // One turn, whatever fails in it
  // -------------------------------------------------------------------------

  /** The turn gets as far as a spawn. */
  predicate Launches(w: World, id: Uuid, a: Answers) {
    && IsRunningRow(w, id)
    && a.Works(StartReadRow) && !SeenAlive(w, w.table[id], a, StartPs) && FileWorks(a) && SpawnWorks(w, a)
  }

  /** The pid a turn spawns, if any. */
  function SpawnedPid(w: World, id: Uuid, io: Uuid -> Answers): set<int> {
    if Launches(w, id, io(id)) then {io(id).pid} else {}
  }

  /** The pids the loop spawns. */
  function SpawnedPids(w: World, ids: seq<Uuid>, io: Uuid -> Answers): set<int>
    decreases |ids|
  {
    if ids == [] then {} else SpawnedPid(w, ids[0], io) + SpawnedPids(Turn(w, ids[0], io), ids[1..], io)
  }

  /** A launch leaves a new sink, and records it if the record works; nothing else changes but a file. */
  predicate IsLaunch(w: World, w': World, id: Uuid, a: Answers, launched: bool)
    requires CanFetch(w, id)
  {
    && w'.procs == (if launched then AfterSpawn(w, id, a.pid).procs else w.procs)
    && w'.table == (if launched && a.Works(RecordPid) then AfterStart(w, id, a.pid).table else w.table)
    && w'.store == w.store && w'.cfg == w.cfg
  }

  lemma FetchResult(w: World, id: Uuid, a: Answers)
    requires CanFetch(w, id)
    ensures IsLaunch(w, Complete(w, id, StartFetch(None, w.table[id]), a).w, id, a, FileWorks(a) && SpawnWorks(w, a))
  {
    StartUpToFile(w, id, None, a);
    StartFromSpawn(w, id, None, a);
    StartFromRecord(w, id, None, a);
  }

  lemma CheckResult(w: World, id: Uuid, a: Answers)
    requires IsRunningRow(w, id) && a.Works(StartReadRow)
    ensures IsLaunch(w, Complete(w, id, StartCheck(None, w.table[id]), a).w, id, a, Launches(w, id, a))
  {
    StartFromCheck(w, id, a);
    FetchResult(w, id, a);
  }

  lemma StartResult(w: World, id: Uuid, a: Answers)
    requires IsRunningRow(w, id)
    ensures IsLaunch(w, Complete(w, id, StartRead(None), a).w, id, a, Launches(w, id, a))
  {
    Unfold(w, id, StartRead(None), a);
    if a.Works(StartReadRow) {
      CheckResult(w, id, a);
    }
  }

  lemma TurnResult(w: World, id: Uuid, io: Uuid -> Answers)
    requires IsRunningRow(w, id)
    ensures IsLaunch(w, Turn(w, id, io), id, io(id), Launches(w, id, io(id)))
  {
    StartResult(w, id, io(id));
  }

  lemma SmoothTurn(w: World, ids: seq<Uuid>, io: Uuid -> Answers)
    requires ids != [] && IsRunningRow(w, ids[0]) && Smooth(w, ids, io)
    ensures Turn(w, ids[0], io) ==
            if Live(w, StalePid(w, ids[0])) then w else AfterStart(w, ids[0], io(ids[0]).pid)
  {
    assert StartWorks(w, io(ids[0]));
    StartFromRunning(w, ids[0], io(ids[0]));
  }

  /** One turn of the loop: a row whose recorded pid is alive is skipped, any other is restarted. */
  lemma OneStart(w: World, ids: seq<Uuid>, io: Uuid -> Answers)
    requires ids != [] && AllRunningRows(w, ids) && Smooth(w, ids, io)
    ensures var id, w1 := ids[0], Turn(w, ids[0], io);
            && w1 == (if Live(w, StalePid(w, id)) then w else AfterStart(w, id, io(id).pid))
            && AllRunningRows(w1, ids[1..])
            && (forall i | 1 <= i < |ids| :: w1.table[ids[i]] == w.table[ids[i]])
  {
    SmoothTurn(w, ids, io);
    var w1 := Turn(w, ids[0], io);
    forall i | 1 <= i < |ids| ensures IsRunningRow(w1, ids[i]) && w1.table[ids[i]] == w.table[ids[i]] {
      assert IsRunningRow(w, ids[i]);
    }
    assert forall i | 0 <= i < |ids[1..]| :: ids[1..][i] == ids[i + 1];
  }

  /** A start, whatever fails in it, touches at most its own row, file and new process. */
  predicate TouchesOnly(w: World, w': World, ids: seq<Uuid>) {
    && w'.cfg == w.cfg && w'.store == w.store && w'.table.Keys == w.table.Keys
    && (forall id | id in w.table && id !in ids :: w'.table[id] == w.table[id])
    && (forall p | p in w.procs && Live(w, p) :: p in w'.procs && w'.procs[p] == w.procs[p])
    && (forall p | p in w'.procs :: IsOldOrOf(w, w', ids, p))
  }

  predicate IsOldOrOf(w: World, w': World, ids: seq<Uuid>, p: int)
    requires p in w'.procs
  {
    || (p in w.procs && w'.procs[p] == w.procs[p])
    || (w'.procs[p].owner.Sink? && w'.procs[p].owner.id in ids)
  }

  lemma StartStepTouches(w: World, id: Uuid, pc: Pc, a: Answer)
    requires IsStartPc(pc) && CreatingOf(pc).None?
    ensures var d := Decide(w, id, pc, a);
            TouchesOnly(w, Apply(w, id, d.effect), [id]) && (d.pc.Done? || (IsStartPc(d.pc) && CreatingOf(d.pc).None?))
  {
  }

  lemma {:induction false} StartTouches(w: World, id: Uuid, pc: Pc, a: Answers)
    requires pc.Done? || (IsStartPc(pc) && CreatingOf(pc).None?)
    ensures TouchesOnly(w, Complete(w, id, pc, a).w, [id])
    decreases Rank(pc)
  {
    if pc.Done? {
    } else {
      var d := Decide(w, id, pc, Reply(a, pc));
      StartStepTouches(w, id, pc, Reply(a, pc));
      RankDecreases(w, id, pc, Reply(a, pc));
      StartTouches(Apply(w, id, d.effect), id, d.pc, a);
    }
  }

  /** Whatever fails: the loop touches no other row, kills nothing and keeps the scripts. */
  lemma {:induction false} OthersUntouched(w: World, ids: seq<Uuid>, io: Uuid -> Answers)
    ensures TouchesOnly(w, StartEach(w, ids, io), ids)
    decreases |ids|
  {
    if ids == [] {
    } else {
      var w1, w' := Turn(w, ids[0], io), StartEach(w, ids, io);
      StartTouches(w, ids[0], StartRead(None), io(ids[0]));
      OthersUntouched(w1, ids[1..], io);
      forall p | p in w'.procs ensures IsOldOrOf(w, w', ids, p) {
        assert IsOldOrOf(w1, w', ids[1..], p);
        assert p in w1.procs ==> IsOldOrOf(w, w1, [ids[0]], p);
      }
    }
  }

  // -------------------------------------------------------------------------
  // Recovery, exactly
  // -------------------------------------------------------------------------

  /** Later turns, for other rows, neither give nor take a row's own process. */
  lemma LaterTurnsKeep(w: World, ids: seq<Uuid>, io: Uuid -> Answers, id: Uuid)
    requires id in w.table && id !in ids
    ensures HasOwnProcess(StartEach(w, ids, io), id) <==> HasOwnProcess(w, id)
  {
    var w' := StartEach(w, ids, io);
    OthersUntouched(w, ids, io);
    if HasOwnProcess(w', id) {
      assert IsOldOrOf(w, w', ids, w'.table[id].processId.value);
    }
  }

  /**
   * In a turn that begins when the pids in `spawned` have been handed out since w: the row's process is not
   * seen alive, the spawn works, and its pid is recorded, or is the recorded one already.
   */
  predicate Relaunches(w: World, spawned: set<int>, id: Uuid, a: Answers)
    requires IsRunningRow(w, id)
  {
    && a.Works(StartReadRow) && FileWorks(a) && a.Works(SpawnSink)
    && !(a.Works(StartPs) && (Live(w, StalePid(w, id)) || StalePid(w, id) in spawned))
    && 0 <= a.pid < PID_LIMIT && !Taken(w, a.pid) && a.pid !in spawned
    && (a.Works(RecordPid) || a.pid == StalePid(w, id))
  }

  lemma TurnRecovers(w: World, id: Uuid, io: Uuid -> Answers)
    requires IsRunningRow(w, id)
    ensures HasOwnProcess(Turn(w, id, io), id) <==> RecordedLives(w, id) || Relaunches(w, {}, id, io(id))
  {
    TurnResult(w, id, io);
  }

  /** A turn leaves the other rows as they were; a process it spawns is not theirs. */
  lemma TurnAndOthers(w: World, id: Uuid, io: Uuid -> Answers, other: Uuid)
    requires IsRunningRow(w, id) && IsRunningRow(w, other) && id != other
    ensures var w1 := Turn(w, id, io);
            && IsRunningRow(w1, other) && w1.table[other] == w.table[other]
            && (RecordedLives(w1, other) <==> RecordedLives(w, other))
  {
    TurnResult(w, id, io);
  }

  lemma TurnAndPids(w: World, id: Uuid, io: Uuid -> Answers, pid: int)
    requires IsRunningRow(w, id)
    ensures Live(Turn(w, id, io), pid) <==> Live(w, pid) || pid in SpawnedPid(w, id, io)
    ensures Taken(Turn(w, id, io), pid) <==> Taken(w, pid) || pid in SpawnedPid(w, id, io)
  {
    TurnResult(w, id, io);
  }

  lemma RelaunchesLater(w: World, id: Uuid, io: Uuid -> Answers, spawned: set<int>, other: Uuid)
    requires IsRunningRow(w, id) && IsRunningRow(w, other) && id != other
    requires IsRunningRow(Turn(w, id, io), other)
    ensures Relaunches(Turn(w, id, io), spawned, other, io(other)) <==>
            Relaunches(w, SpawnedPid(w, id, io) + spawned, other, io(other))
  {
    TurnAndOthers(w, id, io, other);
    TurnAndPids(w, id, io, StalePid(w, other));
    TurnAndPids(w, id, io, io(other).pid);
  }

  lemma TailIsRunning(w: World, ids: seq<Uuid>, io: Uuid -> Answers)
    requires ids != [] && AllRunningRows(w, ids)
    ensures AllRunningRows(Turn(w, ids[0], io), ids[1..])
  {
    forall i | 0 <= i < |ids[1..]| ensures IsRunningRow(Turn(w, ids[0], io), ids[1..][i]) {
      assert ids[1..][i] == ids[i + 1] && ids[0] != ids[i + 1];
      TurnAndOthers(w, ids[0], io, ids[i + 1]);
    }
  }

  lemma SpawnedSoFar(w: World, ids: seq<Uuid>, io: Uuid -> Answers, i: nat)
    requires 0 < i < |ids|
    ensures SpawnedPids(w, ids[..i], io) ==
            SpawnedPid(w, ids[0], io) + SpawnedPids(Turn(w, ids[0], io), ids[1..][..i - 1], io)
  {
    assert ids[..i][0] == ids[0] && ids[..i][1..] == ids[1..][..i - 1];
  }

  /**
   * Boot recovery, exactly, whatever fails in it: a Running row ends with its own live recorded process if
   * and only if it had one all along, or its own turn launches one that the row then records.
   */
  lemma {:induction false} RecoveredExactly(w: World, ids: seq<Uuid>, io: Uuid -> Answers, i: nat)
    requires AllRunningRows(w, ids) && i < |ids|
    ensures HasOwnProcess(StartEach(w, ids, io), ids[i]) <==>
            || RecordedLives(w, ids[i])
            || Relaunches(w, SpawnedPids(w, ids[..i], io), ids[i], io(ids[i]))
    decreases |ids|
  {
    var w1 := Turn(w, ids[0], io);
    if i == 0 {
      TurnResult(w, ids[0], io);
      TurnRecovers(w, ids[0], io);
      assert ids[0] !in ids[1..];
      LaterTurnsKeep(w1, ids[1..], io, ids[0]);
      assert ids[..0] == [];
    } else {
      TailIsRunning(w, ids, io);
      RecoveredExactly(w1, ids[1..], io, i - 1);
      assert ids[1..][i - 1] == ids[i] && ids[0] != ids[i];
      TurnAndOthers(w, ids[0], io, ids[i]);
      RelaunchesLater(w, ids[0], io, SpawnedPids(w1, ids[1..][..i - 1], io), ids[i]);
      SpawnedSoFar(w, ids, io, i);
    }
  }

  lemma {:induction false} SmoothAt(w: World, ids: seq<Uuid>, io: Uuid -> Answers, i: nat)
    requires AllRunningRows(w, ids) && Smooth(w, ids, io) && i < |ids|
    ensures var a := io(ids[i]);
            && a.failing == {} && 0 <= a.pid < PID_LIMIT
            && !Taken(w, a.pid) && a.pid !in SpawnedPids(w, ids[..i], io)
    decreases |ids|
  {
    if i == 0 {
      assert ids[..0] == [];
    } else {
      TailIsRunning(w, ids, io);
      SmoothAt(Turn(w, ids[0], io), ids[1..], io, i - 1);
      TurnAndPids(w, ids[0], io, io(ids[i]).pid);
      SpawnedSoFar(w, ids, io, i);
    }
  }

  /**
   * When no step fails: if and only if it had one all along, or its stale pid is neither alive under
   * somebody else at boot nor handed to a row started earlier in the loop.
   */
  lemma RecoveredSmoothly(w: World, ids: seq<Uuid>, io: Uuid -> Answers, i: nat)
    requires AllRunningRows(w, ids) && Smooth(w, ids, io) && i < |ids|
    ensures HasOwnProcess(StartEach(w, ids, io), ids[i]) <==>
            || RecordedLives(w, ids[i])
            || (!Live(w, StalePid(w, ids[i])) && StalePid(w, ids[i]) !in SpawnedPids(w, ids[..i], io))
  {
    RecoveredExactly(w, ids, io, i);
    SmoothAt(w, ids, io, i);
  }

  /** The loop is a run of the step machine, one start after the other, so it keeps the invariant. */
  lemma {:induction false} LoopIsARun(s: Sys, ids: seq<Uuid>, io: Uuid -> Answers) returns (es: seq<Event>)
    requires s.flights == map[]
    ensures Run(s, es) == s.(w := StartEach(s.w, ids, io))
    ensures Inv(s) ==> Inv(Run(s, es))
    decreases |ids|
  {
    if ids == [] {
      es := [];
    } else {
      var t := Ticket(ids[0], 1);
      var turn := Call(s.w, t, StartRead(None), io(ids[0]));
      CallRuns(s, t, StartRead(None), io(ids[0]));
      var rest := LoopIsARun(Run(s, turn), ids[1..], io);
      RunOfConcat(s, turn, rest);
      es := turn + rest;
    }
    if Inv(s) {
      RunKeepsInv(s, es);
    }
  }

  // -------------------------------------------------------------------------
  // A second recovery
  // -------------------------------------------------------------------------

  predicate ChecksWork(ids: seq<Uuid>, io: Uuid -> Answers) {
    forall i | 0 <= i < |ids| :: io(ids[i]).Works(StartPs)
  }

  /** A run over rows that all have a live recorded process changes nothing at all, if its checks work. */
  lemma {:induction false} NothingToRecover(w: World, ids: seq<Uuid>, io: Uuid -> Answers)
    requires AllRunningRows(w, ids) && ChecksWork(ids, io)
    requires forall i | 0 <= i < |ids| :: Live(w, StalePid(w, ids[i]))
    ensures StartEach(w, ids, io) == w
    decreases |ids|
  {
    if ids == [] {
    } else {
      StartFromRunning(w, ids[0], io(ids[0]));
      NothingToRecover(w, ids[1..], io);
    }
  }

  lemma {:induction false} RowsStayRunning(w: World, ids: seq<Uuid>, io: Uuid -> Answers, i: nat)
    requires AllRunningRows(w, ids) && Smooth(w, ids, io) && i < |ids|
    ensures var w' := StartEach(w, ids, io);
            && IsRunningRow(w', ids[i])
            && w'.table[ids[i]] == w.table[ids[i]].(processId := w'.table[ids[i]].processId)
            && Live(w', StalePid(w', ids[i]))
    decreases |ids|
  {
    OneStart(w, ids, io);
    var w1 := Turn(w, ids[0], io);
    if i == 0 {
      assert ids[0] !in ids[1..];
      assert Live(w1, w1.table[ids[0]].processId.value);
      OthersUntouched(w1, ids[1..], io);
    } else {
      RowsStayRunning(w1, ids[1..], io, i - 1);
    }
  }

  /**
   * When no step fails, the loop changes nothing of a Running row but its pid, and leaves every other row
   * alone; every recorded pid is then alive, so an immediate second recovery whose checks work spawns nothing
   * and changes nothing.
   */
  lemma SecondRecoveryIsIdle(w: World, ids: seq<Uuid>, io: Uuid -> Answers, ids': seq<Uuid>, io': Uuid -> Answers)
    requires AllRunningRows(w, ids) && Smooth(w, ids, io)
    requires Distinct(ids') && (forall id :: id in ids' <==> id in ids)
    requires ChecksWork(ids', io')
    ensures forall id | id in w.table :: id in StartEach(w, ids, io).table &&
              StartEach(w, ids, io).table[id] ==
              if id in ids then w.table[id].(processId := StartEach(w, ids, io).table[id].processId) else w.table[id]
    ensures StartEach(StartEach(w, ids, io), ids', io') == StartEach(w, ids, io)
  {
    var w' := StartEach(w, ids, io);
    OthersUntouched(w, ids, io);
    forall i | 0 <= i < |ids| {
      RowsStayRunning(w, ids, io, i);
    }
    forall i | 0 <= i < |ids'| ensures IsRunningRow(w', ids'[i]) && Live(w', StalePid(w', ids'[i])) {
      assert ids'[i] in ids';
      var j :| 0 <= j < |ids| && ids[j] == ids'[i];
      assert IsRunningRow(w', ids[j]);
    }
    NothingToRecover(w', ids', io');
  }
}
