/**
 * Orderly runs: no two handlers of one id overlap, and the system does not hand out a pid twice.
 * Handlers of different ids still interleave freely, and every step may still fail or be dropped.
 */
module Orderly {
  import opened Wrappers
  import opened Domain
  import opened Protocol
  import opened Interleaved
  import opened Guarantees
  import opened Pids

  predicate Alone(s: Sys, e: Event) {
    e.Begin? ==> forall t | t in s.flights :: t.id != e.t.id
  }

  predicate IsOrderly(s: Sys, e: Event) {
    Enabled(s, e) && Alone(s, e) && NewPid(s, e)
  }

  predicate OrderlyRun(s: Sys, es: seq<Event>)
    decreases |es|
  {
    es == [] || (IsOrderly(s, es[0]) && OrderlyRun(Next(s, es[0]), es[1..]))
  }

  lemma FirstStep(s: Sys, e: Event, rest: seq<Event>)
    ensures OrderlyRun(s, [e] + rest) <==> IsOrderly(s, e) && OrderlyRun(Next(s, e), rest)
    ensures Run(s, [e] + rest) == Run(Next(s, e), rest)
  {
    assert ([e] + rest)[1..] == rest;
  }

  lemma {:induction false} OrderlyConcat(s: Sys, es: seq<Event>, fs: seq<Event>)
    ensures OrderlyRun(s, es + fs) <==> OrderlyRun(s, es) && OrderlyRun(Run(s, es), fs)
    decreases |es|
  {
    if es == [] {
      assert es + fs == fs;
    } else {
      OrderlyConcat(Next(s, es[0]), es[1..], fs);
      FirstStep(s, es[0], es[1..] + fs);
      assert es + fs == [es[0]] + (es[1..] + fs);
    }
  }

  // -------------------------------------------------------------------------
  // The stronger invariant
  // -------------------------------------------------------------------------

  predicate NoOverlap(s: Sys) {
    forall t, u | t in s.flights && u in s.flights && t.id == u.id :: t == u
  }

  /** A handler still finds the row it read. */
  predicate FreshSnap(s: Sys, t: Ticket, pc: Pc) {
    SnapOf(pc).Some? ==> RowAt(s, t.id) == SnapOf(pc)
  }

  /** A handler about to spawn still finds the whole script in its file. */
  predicate FileReady(s: Sys, t: Ticket, pc: Pc) {
    pc.StartSpawn? ==> HasFile(s, t.id)
  }

  predicate FlightsFresh(s: Sys) {
    forall t | t in s.flights ::
      FreshSnap(s, t, s.flights[t]) && FileReady(s, t, s.flights[t])
  }

  predicate Ordered(s: Sys) {
    Inv(s) && NoOverlap(s) && PidsOwned(s) && FlightsFresh(s)
  }

  lemma InitOrdered(s: Sys)
    requires Init(s)
    ensures Ordered(s)
  {
    InitInv(s);
  }

  /** A write ends the handler's claim on the row it read. */
  lemma WritesDropSnap(w: World, id: Uuid, pc: Pc, a: Answer)
    requires var e := Decide(w, id, pc, a).effect; e.SetRow? || e.DropRow?
    ensures SnapOf(Decide(w, id, pc, a).pc).None? && !Decide(w, id, pc, a).pc.StartRecord?
  {
  }

  lemma OwnFlightFresh(s: Sys, t: Ticket, a: Answer)
    requires Enabled(s, Move(t, a)) && FreshSnap(s, t, s.flights[t])
    ensures var s' := Next(s, Move(t, a)); FreshSnap(s', t, s'.flights[t])
  {
    var d, s' := Decide(s.w, t.id, s.flights[t], a), Next(s, Move(t, a));
    SnapIsReadOrKept(s.w, t.id, s.flights[t], a);
    if d.effect.SetRow? || d.effect.DropRow? {
      WritesDropSnap(s.w, t.id, s.flights[t], a);
    }
  }

  /** A write that succeeds completes any beginning of the script. */
  lemma OwnFileReady(s: Sys, t: Ticket, a: Answer)
    requires Enabled(s, Move(t, a)) && PcOk(s, t, s.flights[t])
    ensures var s' := Next(s, Move(t, a)); FileReady(s', t, s'.flights[t])
  {
    if s.flights[t].StartWriteFile? {
      assert HasPart(s, t.id);
    }
  }

  lemma OtherFileOf(w: World, id: Uuid, e: Effect, other: Uuid)
    requires e.WriteScript? ==> id != other
    ensures var path, w' := ScriptTmpPath(w.cfg.tmp, other), Apply(w, id, e);
            && w'.cfg == w.cfg && (path in w'.files <==> path in w.files)
            && (path in w.files ==> w'.files[path] == w.files[path])
  {
    KeysInjective(w.cfg.tmp, id, other);
  }

  /** A handler leaves the files of other ids alone. */
  lemma OtherFilesStay(s: Sys, e: Event, id: Uuid)
    requires Enabled(s, e) && id in s.born
    requires EffectOf(s, e).WriteScript? ==> IdOf(e) != id
    ensures HasFile(Next(s, e), id) <==> HasFile(s, id)
  {
    OtherFileOf(s.w, IdOf(e), EffectOf(s, e), id);
  }

  lemma FlightsStayFresh(s: Sys, e: Event)
    requires Ordered(s) && IsOrderly(s, e)
    ensures FlightsFresh(Next(s, e))
  {
    var s' := Next(s, e);
    forall t | t in s'.flights
      ensures FreshSnap(s', t, s'.flights[t]) && FileReady(s', t, s'.flights[t])
    {
      if e.Move? && e.t == t {
        assert FreshSnap(s, t, s.flights[t]) && PcOk(s, t, s.flights[t]);
        OwnFlightFresh(s, t, e.answer);
        OwnFileReady(s, t, e.answer);
      } else if t in s.flights {
        assert FreshSnap(s, t, s.flights[t]) && FileReady(s, t, s.flights[t]);
        if s.flights[t].StartSpawn? {
          OtherFilesStay(s, e, t.id);
        }
        if RowAt(s, t.id) != RowAt(s', t.id) {
          ChangesAreExplained(s, e, t.id);
        }
      }
    }
  }

  lemma NextOrdered(s: Sys, e: Event)
    requires Ordered(s) && IsOrderly(s, e)
    ensures Ordered(Next(s, e))
  {
    NextKeepsInv(s, e);
    PidsStayOwned(s, e);
    FlightsStayFresh(s, e);
  }

  lemma {:induction false} RunOrdered(s: Sys, es: seq<Event>)
    requires Ordered(s) && OrderlyRun(s, es)
    ensures Ordered(Run(s, es))
    decreases |es|
  {
    if es == [] {
    } else {
      NextOrdered(s, es[0]);
      RunOrdered(Next(s, es[0]), es[1..]);
    }
  }

  // -------------------------------------------------------------------------
  // The edge relation, and the trap
  // -------------------------------------------------------------------------

  /** The moves between statuses of one row. */
  predicate Edge(from: IndexerStatus, to: IndexerStatus) {
    || (to == Running && from != FailedStopping)
    || (from == Running && (to == Stopped || to == FailedStopping || to == FailedRunning))
  }

  /** One event moves a row along an edge, deletes it when Stopped, or inserts it as Created. */
  predicate Moves(before: Option<IndexerModel>, after: Option<IndexerModel>) {
    match (before, after)
    case (None, None) => true
    case (None, Some(m)) => m.status == Created && m.processId.None?
    case (Some(m), None) => m.status == Stopped
    case (Some(m), Some(m')) => m == m' || (Edge(m.status, m'.status) && SameIdentity(m, m'))
  }

  lemma OrderlyEdges(s: Sys, e: Event, id: Uuid)
    requires Ordered(s) && IsOrderly(s, e)
    ensures Moves(RowAt(s, id), RowAt(Next(s, e), id))
  {
    if RowAt(s, id) != RowAt(Next(s, e), id) {
      ChangesAreExplained(s, e, id);
      ExplainedMoves(s, e.t, RowAt(Next(s, e), id));
    }
  }

  lemma ExplainedMoves(s: Sys, t: Ticket, after: Option<IndexerModel>)
    requires Ordered(s) && t in s.flights
    requires var pc := s.flights[t];
             if pc.CreateCommit? then after == Some(NewRow(t.id, pc.request))
             else IsWrite(pc) && t.id in s.w.table && after == Written(pc, s.w.table[t.id])
    ensures Moves(RowAt(s, t.id), after)
  {
    var pc := s.flights[t];
    assert PcOk(s, t, pc) && FreshSnap(s, t, pc);
    if !pc.CreateCommit? {
      WritesAreEdges(pc, s.w.table[t.id]);
    }
  }

  /** A write over the row its handler read moves it along an edge. */
  lemma WritesAreEdges(pc: Pc, row: IndexerModel)
    requires IsWrite(pc) && Gate(pc) && SnapOf(pc) == Some(row)
    requires pc.StopWrite? || pc.UpdateWrite? ==> pc.target == Stopped || pc.target == FailedStopping
    ensures Moves(Some(row), Written(pc, row))
  {
  }

  // -------------------------------------------------------------------------
  // What a spawn finds
  // -------------------------------------------------------------------------

  /** Whenever a start is about to spawn, its file is the script uploaded for its id. */
  lemma SpawnsRunTheScript(s: Sys, es: seq<Event>, t: Ticket)
    requires Init(s) && OrderlyRun(s, es) && t in Run(s, es).flights && Run(s, es).flights[t].StartSpawn?
    ensures HasFile(Run(s, es), t.id) && HasScript(Run(s, es), t.id)
  {
    InitOrdered(s);
    RunOrdered(s, es);
    var s' := Run(s, es);
    assert FileReady(s', t, s'.flights[t]) && FreshSnap(s', t, s'.flights[t]);
  }
}
