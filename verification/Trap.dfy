/**
 * FailedStopping, exactly: the handlers in flight decide whether a FailedStopping row can ever change
 * again, whatever overlaps, fails or is dropped from then on.
 */
module Trap {
  import opened Wrappers
  import opened Domain
  import opened Request
  import opened IndexerTypes
  import opened Protocol
  import opened Interleaved
  import opened Guarantees
  import opened Orderly
  import opened Serial

  predicate InTrap(s: Sys, id: Uuid) {
    id in s.w.table && s.w.table[id].status == FailedStopping
  }

  /** A handler that carries no row, or whose only write is to FailedStopping. */
  predicate IsHarmless(pc: Pc) {
    || SnapOf(pc).None?
    || ((pc.StopWrite? || pc.UpdateCheck? || pc.UpdateWrite?) && pc.target == FailedStopping)
  }

  predicate OnlyHarmless(s: Sys, id: Uuid) {
    forall t | t in s.flights && t.id == id :: IsHarmless(s.flights[t])
  }

  /** No run, orderly or not, changes the row. */
  ghost predicate NeverChanges(s: Sys, id: Uuid) {
    forall es :: RowAt(Run(s, es), id) == RowAt(s, id)
  }

  // -------------------------------------------------------------------------
  // Harmless handlers leave the row alone
  // -------------------------------------------------------------------------

  /** Of a FailedStopping row a harmless handler makes nothing but a harmless one. */
  lemma HarmlessMove(w: World, id: Uuid, pc: Pc, a: Answer)
    requires id in w.table && w.table[id].status == FailedStopping && IsHarmless(pc)
    ensures IsHarmless(Decide(w, id, pc, a).pc)
  {
  }

  lemma TrapKeepsRow(s: Sys, e: Event, id: Uuid)
    requires Inv(s) && InTrap(s, id) && OnlyHarmless(s, id)
    ensures RowAt(Next(s, e), id) == RowAt(s, id)
  {
    if RowAt(Next(s, e), id) != RowAt(s, id) {
      ChangesAreExplained(s, e, id);
      HarmlessWrite(s.flights[e.t], s.w.table[id]);
    }
  }

  lemma HarmlessWrite(pc: Pc, row: IndexerModel)
    requires IsHarmless(pc) && row.status == FailedStopping
    ensures IsWrite(pc) ==> Written(pc, row) == Some(row)
  {
  }

  lemma TrapKeepsHandlers(s: Sys, e: Event, id: Uuid)
    requires InTrap(s, id) && OnlyHarmless(s, id)
    ensures OnlyHarmless(Next(s, e), id)
  {
    forall t | t in Next(s, e).flights && t.id == id ensures IsHarmless(Next(s, e).flights[t]) {
      if e.Move? && e.t == t {
        HarmlessMove(s.w, id, s.flights[t], e.answer);
      }
    }
  }

  lemma {:induction false} TrapRun(s: Sys, es: seq<Event>, id: Uuid)
    requires Inv(s) && InTrap(s, id) && OnlyHarmless(s, id)
    ensures RowAt(Run(s, es), id) == RowAt(s, id)
    decreases |es|
  {
    if es == [] {
    } else {
      TrapKeepsRow(s, es[0], id);
      TrapKeepsHandlers(s, es[0], id);
      NextKeepsInv(s, es[0]);
      TrapRun(Next(s, es[0]), es[1..], id);
    }
  }

  // -------------------------------------------------------------------------
  // Any other handler can change it
  // -------------------------------------------------------------------------

  /** What a handler waits for to reach its write: a check that fails, a step that works. */
  function Push(pc: Pc, pid: int): Answer {
    if pc.StartCheck? || pc.StopCheck? || pc.UpdateCheck? then Fail
    else if pc.StartSpawn? then Spawned(pid)
    else Ok
  }

  /** Whatever the handler still needs of the outside world can be had. */
  predicate Ready(s: Sys, pc: Pc, pid: int) {
    && (IsStartPc(pc) && !pc.StartRecord? ==> 0 <= pid < PID_LIMIT && !Taken(s.w, pid))
    && (pc.StopKill? ==> Taken(s.w, pc.pid))
  }

  predicate Threatens(s: Sys, t: Ticket, pid: int) {
    t in s.flights && !IsHarmless(s.flights[t]) && Ready(s, s.flights[t], pid)
  }

  /** A pushed start goes on towards its record. */
  lemma PushStart(w: World, id: Uuid, pc: Pc, pid: int)
    requires IsStartPc(pc) && SnapOf(pc).Some? && IsStartable(SnapOf(pc).value)
    requires id in w.table && ScriptKey(id) in w.store
    requires pc.StartCheck? ==> pc.snap.processId.Some?
    requires !pc.StartRecord? ==> 0 <= pid < PID_LIMIT && !Taken(w, pid)
    ensures var d := Decide(w, id, pc, Push(pc, pid));
            if pc.StartRecord? then d.effect.SetRow? && d.effect.row.status == Running
            else
              && IsStartPc(d.pc) && SnapOf(d.pc).Some? && Rank(d.pc) < Rank(pc)
              && (d.pc.StartRecord? || d.effect.NoEffect? || d.effect.WriteScript?)
  {
  }

  /** A pushed stop, fail, delete or update goes on towards a write of another status. */
  lemma PushOther(w: World, id: Uuid, pc: Pc, pid: int)
    requires !IsStartPc(pc) && !IsHarmless(pc) && id in w.table
    requires pc.StopCheck? || pc.UpdateCheck? ==> pc.snap.processId.Some?
    requires pc.StopKill? ==> Taken(w, pc.pid)
    ensures var d := Decide(w, id, pc, Push(pc, pid));
            if IsWrite(pc) then
              d.effect == (if pc.DeleteWrite? then DropRow else SetRow(Written(pc, w.table[id]).value))
            else !IsStartPc(d.pc) && IsWrite(d.pc) && !IsHarmless(d.pc) && Rank(d.pc) < Rank(pc)
  {
    if pc.StopCheck? || pc.StopKill? {
      StopStatus(pc.snap.id, 0);
    }
  }

  /** What the step decided is what the system does. */
  lemma StartPushed(s: Sys, t: Ticket, pid: int)
    requires InTrap(s, t.id) && t in s.flights && IsStartPc(s.flights[t]) && Ready(s, s.flights[t], pid)
    requires var pc := s.flights[t];
             var d := Decide(s.w, t.id, pc, Push(pc, pid));
             if pc.StartRecord? then d.effect.SetRow? && d.effect.row.status == Running
             else
               && IsStartPc(d.pc) && SnapOf(d.pc).Some?
               && (d.pc.StartRecord? || d.effect.NoEffect? || d.effect.WriteScript?)
    ensures var s' := Next(s, Move(t, Push(s.flights[t], pid)));
            RowAt(s', t.id) != RowAt(s, t.id) || Threatens(s', t, pid)
  {
    var d := Decide(s.w, t.id, s.flights[t], Push(s.flights[t], pid));
    EffectOnRow(s.w, t.id, d.effect);
  }

  lemma OtherPushed(s: Sys, t: Ticket, pid: int)
    requires InTrap(s, t.id) && t in s.flights && !IsStartPc(s.flights[t]) && !IsHarmless(s.flights[t])
    requires var pc := s.flights[t];
             var d := Decide(s.w, t.id, pc, Push(pc, pid));
             if IsWrite(pc) then
               d.effect == (if pc.DeleteWrite? then DropRow else SetRow(Written(pc, s.w.table[t.id]).value))
             else !IsStartPc(d.pc) && IsWrite(d.pc) && !IsHarmless(d.pc)
    ensures var s' := Next(s, Move(t, Push(s.flights[t], pid)));
            RowAt(s', t.id) != RowAt(s, t.id) || Threatens(s', t, pid)
  {
    var d := Decide(s.w, t.id, s.flights[t], Push(s.flights[t], pid));
    EffectOnRow(s.w, t.id, d.effect);
  }

  lemma EffectOnRow(w: World, id: Uuid, e: Effect)
    ensures var w' := Apply(w, id, e);
            && (e.SetRow? ==> id in w'.table && w'.table[id] == e.row)
            && (e.DropRow? ==> id !in w'.table)
            && (!e.SetProc? ==> w'.procs == w.procs)
  {
  }

  /** The push changes the row, or brings the handler closer to changing it. */
  lemma PushWorks(s: Sys, t: Ticket, pid: int)
    requires Inv(s) && InTrap(s, t.id) && Threatens(s, t, pid)
    ensures var pc := s.flights[t];
            var s' := Next(s, Move(t, Push(pc, pid)));
            || RowAt(s', t.id) != RowAt(s, t.id)
            || (Threatens(s', t, pid) && Rank(s'.flights[t]) < Rank(pc))
  {
    var pc := s.flights[t];
    assert PcOk(s, t, pc);
    if IsStartPc(pc) {
      assert HasScript(s, t.id) && Accepted(s.born[t.id]);
      PushStart(s.w, t.id, pc, pid);
      StartPushed(s, t, pid);
    } else {
      PushOther(s.w, t.id, pc, pid);
      OtherPushed(s, t, pid);
    }
  }

  lemma {:induction false} PushedChanges(s: Sys, t: Ticket, pid: int) returns (es: seq<Event>)
    requires Inv(s) && InTrap(s, t.id) && Threatens(s, t, pid)
    ensures RowAt(Run(s, es), t.id) != RowAt(s, t.id)
    decreases Rank(s.flights[t])
  {
    var e := Move(t, Push(s.flights[t], pid));
    var s' := Next(s, e);
    PushWorks(s, t, pid);
    if RowAt(s', t.id) != RowAt(s, t.id) {
      es := [e];
      FirstStep(s, e, []);
      assert [e] + [] == [e];
    } else {
      NextKeepsInv(s, e);
      var rest := PushedChanges(s', t, pid);
      es := [e] + rest;
      FirstStep(s, e, rest);
    }
  }

  lemma AppearKeepsThreat(s: Sys, t: Ticket, pid: int)
    requires InTrap(s, t.id) && t in s.flights && s.flights[t].StopKill? && !Taken(s.w, s.flights[t].pid)
    ensures var s' := Next(s, Appear(s.flights[t].pid));
            InTrap(s', t.id) && Threatens(s', t, pid) && RowAt(s', t.id) == RowAt(s, t.id)
  {
  }

  /** A kill needs its pid to be there: if it is gone, the system may have handed it out again. */
  lemma HarmfulChanges(s: Sys, t: Ticket, pid: int) returns (es: seq<Event>)
    requires Inv(s) && InTrap(s, t.id) && t in s.flights && !IsHarmless(s.flights[t])
    requires 0 <= pid < PID_LIMIT && !Taken(s.w, pid)
    ensures RowAt(Run(s, es), t.id) != RowAt(s, t.id)
  {
    var pc := s.flights[t];
    if pc.StopKill? && !Taken(s.w, pc.pid) {
      var e := Appear(pc.pid);
      NextKeepsInv(s, e);
      AppearKeepsThreat(s, t, pid);
      var rest := PushedChanges(Next(s, e), t, pid);
      es := [e] + rest;
      FirstStep(s, e, rest);
    } else {
      es := PushedChanges(s, t, pid);
    }
  }

  /**
   * From any state of the invariant in which some pid is free: a FailedStopping row never changes again
   * if and only if every handler of its id in flight is harmless.
   */
  lemma TrappedExactly(s: Sys, id: Uuid, pid: int)
    requires Inv(s) && InTrap(s, id) && 0 <= pid < PID_LIMIT && !Taken(s.w, pid)
    ensures NeverChanges(s, id) <==> OnlyHarmless(s, id)
  {
    if OnlyHarmless(s, id) {
      forall es {
        TrapRun(s, es, id);
      }
    } else {
      var t :| t in s.flights && t.id == id && !IsHarmless(s.flights[t]);
      var es := HarmfulChanges(s, t, pid);
    }
  }

  /**
   * After an orderly run the handlers of a FailedStopping row are harmless, so no run from there on
   * changes it, not even one with overlaps.
   */
  lemma FailedStoppingIsATrap(s: Sys, id: Uuid)
    requires Ordered(s) && InTrap(s, id)
    ensures OnlyHarmless(s, id) && NeverChanges(s, id)
  {
    forall t | t in s.flights && t.id == id ensures IsHarmless(s.flights[t]) {
      assert PcOk(s, t, s.flights[t]) && FreshSnap(s, t, s.flights[t]);
    }
    forall es {
      TrapRun(s, es, id);
    }
  }
}
