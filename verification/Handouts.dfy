/**
 * Who holds a pid, in any interleaved run and with pids used again: the process under a pid is that of the
 * last spawn or foreign start the system handed the pid to. So it is known exactly when a liveness check
 * or a stop meets a process that is not its own.
 */
module Handouts {
  import opened Wrappers
  import opened Domain
  import opened Request
  import opened IndexerTypes
  import opened Protocol
  import opened Interleaved
  import opened Guarantees
  import opened Pids

  // -------------------------------------------------------------------------
  // The owner of a pid
  // -------------------------------------------------------------------------

  function OwnerAt(s: Sys, pid: int): Option<Owner> {
    if pid in s.w.procs then Some(s.w.procs[pid].owner) else None
  }

  /** A spawn that works. */
  predicate Spawns(s: Sys, t: Ticket, pid: int) {
    && t in s.flights && s.flights[t].StartSpawn? && IsStartable(s.flights[t].snap)
    && 0 <= pid < PID_LIMIT && !Taken(s.w, pid)
  }

  /** The system gives the pid to a new process: a foreign one, or the sink of a spawn. */
  predicate HandsOut(s: Sys, e: Event, pid: int) {
    match e
    case Appear(p) => p == pid && !Taken(s.w, pid)
    case Move(t, Spawned(p)) => p == pid && Spawns(s, t, pid)
    case _ => false
  }

  function Receiver(e: Event): Owner {
    if e.Move? then Sink(e.t.id) else Foreign
  }

  lemma MoveOwners(w: World, id: Uuid, pc: Pc, a: Answer, pid: int)
    ensures var w' := Apply(w, id, Decide(w, id, pc, a).effect);
            if pc.StartSpawn? && IsStartable(pc.snap) && a == Spawned(pid) && 0 <= pid < PID_LIMIT && !Taken(w, pid)
            then pid in w'.procs && w'.procs[pid].owner == Sink(id)
            else (pid in w'.procs <==> pid in w.procs) && (pid in w.procs ==> w'.procs[pid].owner == w.procs[pid].owner)
  {
    SpawnsAndSignals(w, id, pc, a);
  }

  /** Only handing a pid out changes its owner. */
  lemma OwnerStep(s: Sys, e: Event, pid: int)
    ensures OwnerAt(Next(s, e), pid) == if HandsOut(s, e, pid) then Some(Receiver(e)) else OwnerAt(s, pid)
  {
    if e.Move? && Enabled(s, e) {
      MoveOwners(s.w, e.t.id, s.flights[e.t], e.answer, pid);
    }
  }

  predicate HandsOutAt(s: Sys, es: seq<Event>, k: nat, pid: int)
    requires k < |es|
  {
    HandsOut(Run(s, es[..k]), es[k], pid)
  }

  /** Event k is the last one before j to hand the pid out. */
  predicate IsLastHandout(s: Sys, es: seq<Event>, j: nat, pid: int, k: nat)
    requires j <= |es|
  {
    k < j && HandsOutAt(s, es, k, pid) && forall l | k < l < j :: !HandsOutAt(s, es, l, pid)
  }

  lemma OwnerOneMore(s: Sys, es: seq<Event>, l: nat, pid: int)
    requires l < |es|
    ensures OwnerAt(Run(s, es[..l + 1]), pid) ==
            if HandsOutAt(s, es, l, pid) then Some(Receiver(es[l])) else OwnerAt(Run(s, es[..l]), pid)
  {
    RunOneMore(s, es, l);
    OwnerStep(Run(s, es[..l]), es[l], pid);
  }

  /** From the last handout on the receiver owns the pid. */
  lemma {:induction false} OwnerIsLastReceiver(s: Sys, es: seq<Event>, j: nat, pid: int, k: nat)
    requires j <= |es| && IsLastHandout(s, es, j, pid, k)
    ensures OwnerAt(Run(s, es[..j]), pid) == Some(Receiver(es[k]))
    decreases j
  {
    OwnerOneMore(s, es, j - 1, pid);
    if k == j - 1 {
    } else {
      assert !HandsOutAt(s, es, j - 1, pid);
      OwnerIsLastReceiver(s, es, j - 1, pid, k);
    }
  }

  lemma {:induction false} LastHandout(s: Sys, es: seq<Event>, i: nat, j: nat, pid: int) returns (k: nat)
    requires i < j <= |es| && HandsOutAt(s, es, i, pid)
    ensures i <= k && IsLastHandout(s, es, j, pid, k)
    decreases j
  {
    if HandsOutAt(s, es, j - 1, pid) {
      k := j - 1;
    } else {
      k := LastHandout(s, es, i, j - 1, pid);
    }
  }

  // -------------------------------------------------------------------------
  // The pids of an id
  // -------------------------------------------------------------------------

  predicate PcCarries(pc: Pc, pid: int) {
    || (SnapOf(pc).Some? && SnapOf(pc).value.processId == Some(pid))
    || ((pc.StartRecord? || pc.StopKill?) && pc.pid == pid)
  }

  predicate FlightCarries(s: Sys, t: Ticket, id: Uuid, pid: int) {
    t in s.flights && t.id == id && PcCarries(s.flights[t], pid)
  }

  /** The row of the id or a handler for it carries the pid. */
  predicate Carries(s: Sys, id: Uuid, pid: int) {
    || (id in s.w.table && s.w.table[id].processId == Some(pid))
    || exists t | t in s.flights :: FlightCarries(s, t, id, pid)
  }

  predicate HandsTo(s: Sys, e: Event, id: Uuid, pid: int) {
    HandsOut(s, e, pid) && Receiver(e) == Sink(id)
  }

  lemma MoveCarries(w: World, id: Uuid, pc: Pc, a: Answer, pid: int)
    requires PcCarries(Decide(w, id, pc, a).pc, pid)
    ensures || PcCarries(pc, pid)
            || (id in w.table && w.table[id].processId == Some(pid))
            || (pc.StartSpawn? && IsStartable(pc.snap) && a == Spawned(pid) && 0 <= pid < PID_LIMIT && !Taken(w, pid))
  {
    SnapIsReadOrKept(w, id, pc, a);
  }

  lemma FlightOrigin(s: Sys, e: Event, t: Ticket, id: Uuid, pid: int)
    requires FlightCarries(Next(s, e), t, id, pid)
    ensures Carries(s, id, pid) || HandsTo(s, e, id, pid)
  {
    if e.Move? && e.t == t && Enabled(s, e) {
      MoveCarries(s.w, id, s.flights[t], e.answer, pid);
      if PcCarries(s.flights[t], pid) {
        assert FlightCarries(s, t, id, pid);
      }
    } else if t in s.flights {
      assert FlightCarries(s, t, id, pid);
    }
  }

  lemma RowOrigin(s: Sys, e: Event, id: Uuid, pid: int)
    requires id in Next(s, e).w.table && Next(s, e).w.table[id].processId == Some(pid)
    ensures Carries(s, id, pid)
  {
    if RowAt(s, id) != RowAt(Next(s, e), id) {
      ChangesAreExplained(s, e, id);
      assert s.flights[e.t].StartRecord? && s.flights[e.t].pid == pid ==> FlightCarries(s, e.t, id, pid);
    }
  }

  /** A pid an id carries was handed to it, or carried before. */
  lemma CarriedStep(s: Sys, e: Event, id: Uuid, pid: int)
    requires Carries(Next(s, e), id, pid)
    ensures Carries(s, id, pid) || HandsTo(s, e, id, pid)
  {
    if id in Next(s, e).w.table && Next(s, e).w.table[id].processId == Some(pid) {
      RowOrigin(s, e, id, pid);
    } else {
      var t :| FlightCarries(Next(s, e), t, id, pid);
      FlightOrigin(s, e, t, id, pid);
    }
  }

  /** Every pid an id carries was handed to a sink of that id earlier. */
  lemma {:induction false} CarriedWasHanded(s: Sys, es: seq<Event>, j: nat, id: Uuid, pid: int) returns (i: nat)
    requires Init(s) && j <= |es| && Carries(Run(s, es[..j]), id, pid)
    ensures i < j && HandsTo(Run(s, es[..i]), es[i], id, pid)
    decreases j
  {
    if j == 0 {
      assert false;
    }
    RunOneMore(s, es, j - 1);
    CarriedStep(Run(s, es[..j - 1]), es[j - 1], id, pid);
    if HandsTo(Run(s, es[..j - 1]), es[j - 1], id, pid) {
      i := j - 1;
    } else {
      i := CarriedWasHanded(s, es, j - 1, id, pid);
    }
  }

  // -------------------------------------------------------------------------
  // Own processes and strangers, exactly
  // -------------------------------------------------------------------------

  /** Event k handed the pid to somebody else than a sink of the id, and nobody got it since. */
  predicate LostTo(s: Sys, es: seq<Event>, j: nat, id: Uuid, pid: int, k: nat)
    requires j <= |es|
  {
    IsLastHandout(s, es, j, pid, k) && Receiver(es[k]) != Sink(id)
  }

  /**
   * In every interleaved run, a pid that the row of an id or a handler for it carries was handed to a sink
   * of that id at some event i. The process under it is another one's now if and only if some later event
   * handed the pid to another one and was the last to hand it out.
   */
  lemma StrangersExactly(s: Sys, es: seq<Event>, j: nat, id: Uuid, pid: int) returns (i: nat)
    requires Init(s) && j <= |es| && Carries(Run(s, es[..j]), id, pid)
    ensures i < j && HandsTo(Run(s, es[..i]), es[i], id, pid)
    ensures pid in Run(s, es[..j]).w.procs
    ensures !OwnedPid(Run(s, es[..j]), id, pid) <==> exists k: nat :: i < k && LostTo(s, es, j, id, pid, k)
  {
    i := CarriedWasHanded(s, es, j, id, pid);
    var last := LastHandout(s, es, i, j, pid);
    OwnerIsLastReceiver(s, es, j, pid, last);
    if !OwnedPid(Run(s, es[..j]), id, pid) {
      assert i < last && LostTo(s, es, j, id, pid, last);
    }
    forall k: nat | LostTo(s, es, j, id, pid, k) ensures k == last {
      assert HandsOutAt(s, es, k, pid);
    }
  }

  /**
   * The process a stop signals, exactly. A stop about to kill has a pid that was handed to its id. If it
   * signals a process, that is the one under this pid, and it is not a sink of its id if and only if the pid
   * was handed out again and went to another one last.
   */
  lemma StopSignalsStrangersExactly(s: Sys, es: seq<Event>, j: nat, t: Ticket, a: Answer) returns (i: nat)
    requires Init(s) && j <= |es| && Enabled(Run(s, es[..j]), Move(t, a))
    requires IsStopPc(Run(s, es[..j]).flights[t]) && EffectOf(Run(s, es[..j]), Move(t, a)).SetProc?
    ensures var s', effect := Run(s, es[..j]), EffectOf(Run(s, es[..j]), Move(t, a));
            && s'.flights[t].StopKill? && s'.flights[t].snap.processId == Some(effect.pid)
            && effect.pid in s'.w.procs && effect.proc == Signal(s'.w.procs[effect.pid])
            && i < j && HandsTo(Run(s, es[..i]), es[i], t.id, effect.pid)
            && (effect.proc.owner != Sink(t.id) <==>
                  exists k: nat :: i < k && LostTo(s, es, j, t.id, effect.pid, k))
  {
    var s' := Run(s, es[..j]);
    InitInv(s);
    RunKeepsInv(s, es[..j]);
    assert PcOk(s', t, s'.flights[t]);
    SpawnsAndSignals(s'.w, t.id, s'.flights[t], a);
    var pid := EffectOf(s', Move(t, a)).pid;
    assert FlightCarries(s', t, t.id, pid);
    i := StrangersExactly(s, es, j, t.id, pid);
  }

  /** The process runs the row's sink, script and destination. */
  predicate IsRunBy(w: World, m: IndexerModel, pid: int) {
    pid in w.procs && w.procs[pid].command.Some? && RunsRow(w.cfg, m, w.procs[pid].command.value)
  }

  predicate IsCheck(pc: Pc) {
    pc.StartCheck? || pc.StopCheck? || pc.UpdateCheck?
  }

  /**
   * What a liveness check sees, exactly. It always has a pid that was handed to its id, and answers
   * "running" if and only if its pipeline works and the process under the pid is alive. That process is not
   * a sink of its id if and only if the pid went to another one last; otherwise it runs the row's command.
   */
  lemma ChecksSeeStrangersExactly(s: Sys, es: seq<Event>, j: nat, t: Ticket, a: Answer) returns (i: nat)
    requires Init(s) && j <= |es| && t in Run(s, es[..j]).flights && IsCheck(Run(s, es[..j]).flights[t])
    ensures var s', m := Run(s, es[..j]), Run(s, es[..j]).flights[t].snap;
            && m.processId.Some? && m.processId.value in s'.w.procs
            && IsRunning(s'.w, m, a) == Success(a.Ok? && s'.w.procs[m.processId.value].state in {Alive, Signalled})
            && i < j && HandsTo(Run(s, es[..i]), es[i], t.id, m.processId.value)
            && (!OwnedPid(s', t.id, m.processId.value) <==>
                  exists k: nat :: i < k && LostTo(s, es, j, t.id, m.processId.value, k))
            && (OwnedPid(s', t.id, m.processId.value) ==> IsRunBy(s'.w, m, m.processId.value))
  {
    var s' := Run(s, es[..j]);
    InitInv(s);
    RunKeepsInv(s, es[..j]);
    var m := s'.flights[t].snap;
    CheckHasPid(s', t);
    var pid := m.processId.value;
    assert FlightCarries(s', t, t.id, pid);
    i := StrangersExactly(s, es, j, t.id, pid);
    IsRunningByState(s'.w, m, a);
    if OwnedPid(s', t.id, pid) {
      OwnSinkRunsRow(s', t, pid);
    }
  }

  lemma IsRunningByState(w: World, m: IndexerModel, a: Answer)
    requires m.processId.Some? && m.processId.value in w.procs
    ensures IsRunning(w, m, a) == Success(a.Ok? && w.procs[m.processId.value].state in {Alive, Signalled})
  {
  }

  lemma CheckHasPid(s: Sys, t: Ticket)
    requires Inv(s) && t in s.flights && IsCheck(s.flights[t])
    ensures s.flights[t].snap.processId.Some?
  {
    assert PcOk(s, t, s.flights[t]);
  }

  lemma OwnSinkRunsRow(s: Sys, t: Ticket, pid: int)
    requires Inv(s) && t in s.flights && SnapOf(s.flights[t]).Some? && OwnedPid(s, t.id, pid)
    ensures var m := SnapOf(s.flights[t]).value;
            IsRunBy(s.w, m, pid)
  {
    assert PcOk(s, t, s.flights[t]) && Accepted(s.born[t.id]) && ProcOk(s, s.w.procs[pid]);
    CommandIgnoresUpdates(s.w.cfg, NewRow(t.id, s.born[t.id]), SnapOf(s.flights[t]).value);
    CommandRunsRow(s.w.cfg, SnapOf(s.flights[t]).value);
  }
}
