/**
 * While the system hands out no pid twice, the pids that rows and handlers carry are those of their own id's
 * sinks, even if handlers overlap, fail or are dropped.
 */
module Pids {
  import opened Wrappers
  import opened Domain
  import opened Protocol
  import opened Interleaved
  import opened Guarantees

  /** A spawned or foreign process gets a pid never seen before. */
  predicate NewPid(s: Sys, e: Event) {
    match e
    case Move(t, Spawned(pid)) =>
      t in s.flights && s.flights[t].StartSpawn? ==> 0 <= pid < PID_LIMIT && pid !in s.w.procs
    case Appear(pid) => pid !in s.w.procs
    case _ => true
  }

  predicate OwnedPid(s: Sys, id: Uuid, pid: int) {
    pid in s.w.procs && s.w.procs[pid].owner == Sink(id)
  }

  predicate RowOwned(s: Sys, id: Uuid, m: IndexerModel) {
    m.processId.Some? ==> OwnedPid(s, id, m.processId.value)
  }

  /** The pids a handler carries: its row's, and the one it spawned or is about to signal. */
  predicate FlightOwned(s: Sys, id: Uuid, pc: Pc) {
    && (SnapOf(pc).Some? ==> RowOwned(s, id, SnapOf(pc).value))
    && (pc.StartRecord? || pc.StopKill? ==> OwnedPid(s, id, pc.pid))
  }

  predicate PidsOwned(s: Sys) {
    && (forall id | id in s.w.table :: RowOwned(s, id, s.w.table[id]))
    && (forall t | t in s.flights :: FlightOwned(s, t.id, s.flights[t]))
  }

  /** Processes never change hands. */
  lemma OwnersStay(s: Sys, e: Event, pid: int)
    requires NewPid(s, e) && pid in s.w.procs
    ensures pid in Next(s, e).w.procs && Next(s, e).w.procs[pid].owner == s.w.procs[pid].owner
  {
    if e.Move? && Enabled(s, e) {
      SpawnsAndSignals(s.w, e.t.id, s.flights[e.t], e.answer);
    }
  }

  lemma RowStaysOwned(s: Sys, e: Event, id: Uuid, m: IndexerModel)
    requires NewPid(s, e) && RowOwned(s, id, m)
    ensures RowOwned(Next(s, e), id, m)
  {
    if m.processId.Some? {
      OwnersStay(s, e, m.processId.value);
    }
  }

  lemma FlightStaysOwned(s: Sys, e: Event, id: Uuid, pc: Pc)
    requires NewPid(s, e) && FlightOwned(s, id, pc)
    ensures FlightOwned(Next(s, e), id, pc)
  {
    if SnapOf(pc).Some? {
      RowStaysOwned(s, e, id, SnapOf(pc).value);
    }
    if pc.StartRecord? || pc.StopKill? {
      OwnersStay(s, e, pc.pid);
    }
  }

  lemma SpawnIsOwned(w: World, id: Uuid, pc: Pc, a: Answer)
    requires Decide(w, id, pc, a).pc.StartRecord?
    ensures pc.StartSpawn? && Decide(w, id, pc, a).effect.SetProc?
    ensures Decide(w, id, pc, a).effect.pid == Decide(w, id, pc, a).pc.pid
    ensures Decide(w, id, pc, a).effect.proc.owner == Sink(id)
  {
  }

  lemma KillIsOfSnap(w: World, id: Uuid, pc: Pc, a: Answer)
    requires Decide(w, id, pc, a).pc.StopKill?
    ensures SnapOf(pc).Some? && SnapOf(pc).value.processId == Some(Decide(w, id, pc, a).pc.pid)
  {
  }

  lemma OwnFlightOwned(s: Sys, t: Ticket, a: Answer)
    requires PidsOwned(s) && NewPid(s, Move(t, a)) && Enabled(s, Move(t, a))
    ensures var s' := Next(s, Move(t, a)); FlightOwned(s', t.id, s'.flights[t])
  {
    var d, e := Decide(s.w, t.id, s.flights[t], a), Move(t, a);
    assert FlightOwned(s, t.id, s.flights[t]);
    SnapIsReadOrKept(s.w, t.id, s.flights[t], a);
    if SnapOf(d.pc).Some? {
      assert RowOwned(s, t.id, SnapOf(d.pc).value);
      RowStaysOwned(s, e, t.id, SnapOf(d.pc).value);
    }
    if d.pc.StartRecord? {
      SpawnIsOwned(s.w, t.id, s.flights[t], a);
    } else if d.pc.StopKill? {
      KillIsOfSnap(s.w, t.id, s.flights[t], a);
      OwnersStay(s, e, d.pc.pid);
    }
  }

  lemma RowsStayOwned(s: Sys, e: Event, id: Uuid)
    requires PidsOwned(s) && NewPid(s, e) && id in Next(s, e).w.table
    ensures RowOwned(Next(s, e), id, Next(s, e).w.table[id])
  {
    if RowAt(s, id) != RowAt(Next(s, e), id) {
      ChangesAreExplained(s, e, id);
      assert FlightOwned(s, e.t.id, s.flights[e.t]);
    }
    assert RowOwned(s, id, Next(s, e).w.table[id]);
    RowStaysOwned(s, e, id, Next(s, e).w.table[id]);
  }

  lemma PidsStayOwned(s: Sys, e: Event)
    requires PidsOwned(s) && NewPid(s, e)
    ensures PidsOwned(Next(s, e))
  {
    var s' := Next(s, e);
    forall id | id in s'.w.table ensures RowOwned(s', id, s'.w.table[id]) {
      RowsStayOwned(s, e, id);
    }
    forall t | t in s'.flights ensures FlightOwned(s', t.id, s'.flights[t]) {
      if e.Move? && e.t == t && Enabled(s, e) {
        OwnFlightOwned(s, t, e.answer);
      } else if t in s.flights {
        FlightStaysOwned(s, e, t.id, s.flights[t]);
      }
    }
  }
}
