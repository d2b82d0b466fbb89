/**
 * What overlapping handlers of one id, and reused pids, can do that orderly runs cannot: four guarantees
 * of orderly runs fail, each on a run from the empty service given here.
 */
module Overlap {
  import opened Wrappers
  import opened Domain
  import opened Request
  import opened IndexerTypes
  import opened Protocol
  import opened Interleaved
  import opened Guarantees
  import opened Serial
  import opened Reachable

  lemma BeginRuns(s: Sys, t: Ticket, call: Pc)
    requires t !in s.flights && t.n > 0 && IsCall(call) && !call.CreateInsert?
    ensures Run(s, [Begin(t, call)]) == s.(flights := s.flights[t := call])
  {
    RunOfOne(s, Begin(t, call));
  }

  lemma MoveRuns(s: Sys, t: Ticket, a: Answer)
    requires t in s.flights && !s.flights[t].Done?
    ensures var d := Decide(s.w, t.id, s.flights[t], a);
            Run(s, [Move(t, a)]) == s.(w := Apply(s.w, t.id, d.effect), flights := s.flights[t := d.pc])
  {
    RunOfOne(s, Move(t, a));
  }

  lemma RunOfOne(s: Sys, e: Event)
    ensures Run(s, [e]) == Next(s, e)
  {
    assert Run(s, [e]) == Run(Next(s, e), []);
  }

  lemma Then(s: Sys, es: seq<Event>, mid: Sys, fs: seq<Event>) returns (all: seq<Event>)
    requires Run(s, es) == mid
    ensures all == es + fs && Run(s, all) == Run(mid, fs)
  {
    all := es + fs;
    RunOfConcat(s, es, fs);
  }

  /** One quiet step: the handler moves on, the world stays. */
  lemma Quiet(s: Sys, s0: Sys, es: seq<Event>, t: Ticket, pc: Pc, a: Answer, next: Pc) returns (all: seq<Event>)
    requires Run(s0, es) == s.(flights := s.flights[t := pc]) && !pc.Done?
    requires Decide(s.w, t.id, pc, a) == Decision(NoEffect, next)
    ensures Run(s0, all) == s.(flights := s.flights[t := next])
  {
    var mid := s.(flights := s.flights[t := pc]);
    MoveRuns(mid, t, a);
    all := Then(s0, es, mid, [Move(t, a)]);
    assert s.flights[t := pc][t := next] == s.flights[t := next];
  }

  // -------------------------------------------------------------------------
  // A delete overlapping a start
  // -------------------------------------------------------------------------

  /** A whole start, overlapping whatever else is in flight. */
  lemma StartRuns(s: Sys, t: Ticket, pid: int) returns (es: seq<Event>)
    requires t !in s.flights && t.n > 0 && CanFetch(s.w, t.id) && s.w.table[t.id].status == Stopped
    requires 0 <= pid < PID_LIMIT && !Taken(s.w, pid)
    ensures Run(s, es) == s.(w := AfterStart(s.w, t.id, pid), flights := s.flights[t := Done(Success(None))])
  {
    var a := Working(pid);
    var mid := s.(flights := s.flights[t := StartRead(None)]);
    BeginRuns(s, t, StartRead(None));
    StepsRun(mid, t, a);
    StartFromIdle(s.w, t.id, None, a);
    es := Then(s, [Begin(t, StartRead(None))], mid, Steps(s.w, t, StartRead(None), a));
    assert mid.flights[t := Done(Success(None))] == s.flights[t := Done(Success(None))];
  }

  lemma DeleteReads(s: Sys, t: Ticket) returns (es: seq<Event>)
    requires t !in s.flights && t.n > 0 && t.id in s.w.table && s.w.table[t.id].status == Stopped
    ensures Run(s, es) == s.(flights := s.flights[t := DeleteWrite(s.w.table[t.id])])
  {
    BeginRuns(s, t, DeleteRead);
    es := Quiet(s, s, [Begin(t, DeleteRead)], t, DeleteRead, Ok, DeleteWrite(s.w.table[t.id]));
  }

  /**
   * A delete that read Stopped removes the row after an overlapping start made it Running: the row is
   * gone and its live process is recorded nowhere.
   */
  lemma OverlapDeletesRunningRow(s: Sys, id: Uuid, r: CreateIndexerRequest, pid: int, pid': int)
    returns (es: seq<Event>, last: Event)
    requires CanCreate(s, id, r) && TwoPids(s, pid, pid')
    ensures RowAt(Run(s, es), id).Some? && RowAt(Run(s, es), id).value.status == Running
    ensures RowAt(Run(s, es + [last]), id).None?
    ensures Live(Run(s, es + [last]).w, pid') && Run(s, es + [last]).w.procs[pid'].owner == Sink(id)
  {
    var front := ReachStopped(s, id, r, pid, pid');
    var s1 := Run(s, front);
    SettledCanFetch(s1, id, Stopped, pid);
    var back;
    back, last := DeleteMeetsStart(s1, id, pid');
    es := Then(s, front, s1, back);
    var all := Then(s, front, s1, back + [last]);
    assert all == es + [last];
  }

  lemma DeleteMeetsStart(s: Sys, id: Uuid, pid: int) returns (es: seq<Event>, last: Event)
    requires s.flights == map[] && CanFetch(s.w, id) && s.w.table[id].status == Stopped
    requires 0 <= pid < PID_LIMIT && !Taken(s.w, pid)
    ensures RowAt(Run(s, es), id).Some? && RowAt(Run(s, es), id).value.status == Running
    ensures RowAt(Run(s, es + [last]), id).None?
    ensures Live(Run(s, es + [last]).w, pid) && Run(s, es + [last]).w.procs[pid].owner == Sink(id)
  {
    var d, t := Ticket(id, 1), Ticket(id, 2);
    var prefix := DeleteReads(s, d);
    var s1 := Run(s, prefix);
    var start := StartRuns(s1, t, pid);
    es := Then(s, prefix, s1, start);
    var s2 := Run(s, es);
    assert s2.flights[d].DeleteWrite? && s2.w == AfterStart(s.w, id, pid);
    last := Move(d, Ok);
    DeleteWrites(s2, d);
    var _ := Then(s, es, s2, [last]);
  }

  lemma DeleteWrites(s: Sys, t: Ticket)
    requires t in s.flights && s.flights[t].DeleteWrite?
    ensures Run(s, [Move(t, Ok)]).w == s.w.(table := s.w.table - {t.id})
  {
    MoveRuns(s, t, Ok);
  }

  // -------------------------------------------------------------------------
  // A stop overlapping a start
  // -------------------------------------------------------------------------

  /** A stop whose kill fails, up to its write. */
  lemma StopUpToWrite(s: Sys, t: Ticket) returns (es: seq<Event>)
    requires t !in s.flights && t.n > 0 && t.id in s.w.table && s.w.table[t.id].status == Running
    requires s.w.table[t.id].processId.Some? && Live(s.w, s.w.table[t.id].processId.value)
    ensures Run(s, es) == s.(flights := s.flights[t := StopWrite(s.w.table[t.id], FailedStopping)])
  {
    var m := s.w.table[t.id];
    es := StopUpToKill(s, t);
    es := Quiet(s, s, es, t, StopKill(m, m.processId.value), Fail, StopWrite(m, FailedStopping));
  }

  /** A start of a Running row whose process is dead, up to its file. */
  lemma StartUpToFetch(s: Sys, t: Ticket) returns (es: seq<Event>)
    requires t !in s.flights && t.n > 0 && CanFetch(s.w, t.id) && s.w.table[t.id].status == Running
    requires s.w.table[t.id].processId.Some? && !Live(s.w, s.w.table[t.id].processId.value)
    ensures var m, script := s.w.table[t.id], s.w.store[ScriptKey(t.id)];
            Run(s, es) == s.(flights := s.flights[t := StartCreateFile(None, m, script)])
  {
    var m, script := s.w.table[t.id], s.w.store[ScriptKey(t.id)];
    BeginRuns(s, t, StartRead(None));
    es := Quiet(s, s, [Begin(t, StartRead(None))], t, StartRead(None), Ok, StartCheck(None, m));
    es := Quiet(s, s, es, t, StartCheck(None, m), Ok, StartFetch(None, m));
    es := Quiet(s, s, es, t, StartFetch(None, m), Ok, StartCreateFile(None, m, script));
  }

  /** From its file on, up to its record. */
  lemma FileUpToRecord(s: Sys, t: Ticket, pid: int) returns (es: seq<Event>)
    requires CanFetch(s.w, t.id) && t in s.flights
    requires s.flights[t] == StartCreateFile(None, s.w.table[t.id], s.w.store[ScriptKey(t.id)])
    requires 0 <= pid < PID_LIMIT && !Taken(s.w, pid)
    ensures Run(s, es).w == AfterSpawn(s.w, t.id, pid)
    ensures Run(s, es).flights == s.flights[t := StartRecord(None, s.w.table[t.id], pid)]
  {
    es := WritesFile(s, t);
    var s1 := Run(s, es);
    MoveRuns(s1, t, Spawned(pid));
    es := Then(s, es, s1, [Move(t, Spawned(pid))]);
  }

  /** The creation of the file empties it. */
  lemma CreatesFile(s: Sys, t: Ticket)
    requires CanFetch(s.w, t.id) && t in s.flights
    requires s.flights[t] == StartCreateFile(None, s.w.table[t.id], s.w.store[ScriptKey(t.id)])
    ensures var m, script := s.w.table[t.id], s.w.store[ScriptKey(t.id)];
            Run(s, [Move(t, Ok)]) ==
            s.(w := AfterPart(s.w, t.id, []), flights := s.flights[t := StartWriteFile(None, m, script)])
  {
    MoveRuns(s, t, Ok);
  }

  lemma WritesFile(s: Sys, t: Ticket) returns (es: seq<Event>)
    requires CanFetch(s.w, t.id) && t in s.flights
    requires s.flights[t] == StartCreateFile(None, s.w.table[t.id], s.w.store[ScriptKey(t.id)])
    ensures Run(s, es) ==
            s.(w := AfterFile(s.w, t.id), flights := s.flights[t := StartSpawn(None, s.w.table[t.id])])
  {
    CreatesFile(s, t);
    var s1, script := Run(s, [Move(t, Ok)]), s.w.store[ScriptKey(t.id)];
    MoveRuns(s1, t, Ok);
    assert Overwrite(FileAt(s1.w, t.id), script) == script;
    es := Then(s, [Move(t, Ok)], s1, [Move(t, Ok)]);
  }

  lemma StartUpToRecord(s: Sys, t: Ticket, pid: int) returns (es: seq<Event>)
    requires t !in s.flights && t.n > 0 && CanFetch(s.w, t.id) && s.w.table[t.id].status == Running
    requires s.w.table[t.id].processId.Some? && !Live(s.w, s.w.table[t.id].processId.value)
    requires 0 <= pid < PID_LIMIT && !Taken(s.w, pid)
    ensures Run(s, es).w == AfterSpawn(s.w, t.id, pid)
    ensures Run(s, es).flights == s.flights[t := StartRecord(None, s.w.table[t.id], pid)]
  {
    var front := StartUpToFetch(s, t);
    var s1 := Run(s, front);
    var back := FileUpToRecord(s1, t, pid);
    es := Then(s, front, s1, back);
  }

  /** Between a start's check and its record the process died and a stop gave up on it. */
  lemma StopAndStartMeet(s: Sys, stop: Ticket, start: Ticket, pid: int) returns (es: seq<Event>)
    requires s.flights == map[] && stop.n > 0 && start.n > 0 && stop != start && stop.id == start.id
    requires CanFetch(s.w, stop.id) && s.w.table[stop.id].status == Running
    requires s.w.table[stop.id].processId.Some? && Live(s.w, s.w.table[stop.id].processId.value)
    requires 0 <= pid < PID_LIMIT && pid !in s.w.procs
    ensures var s', m := Run(s, es), s.w.table[stop.id];
            && s'.w.table == s.w.table
            && s'.flights == map[stop := StopWrite(m, FailedStopping), start := StartRecord(None, m, pid)]
  {
    var dying := s.w.table[stop.id].processId.value;
    var exit := Exit(dying, s.w.procs[dying].owner);
    es := StopUpToWrite(s, stop);
    var s1 := Run(s, es);
    RunOfOne(s1, exit);
    es := Then(s, es, s1, [exit]);
    var s2 := Run(s, es);
    assert s2.w == s.w.(procs := s.w.procs[dying := s.w.procs[dying].(state := Zombie)]);
    var rest := StartUpToRecord(s2, start, pid);
    es := Then(s, es, s2, rest);
  }

  /** The stop writes FailedStopping; the start, which read Running, then overwrites it. */
  lemma OverlapEscapesTheTrap(s: Sys, id: Uuid, r: CreateIndexerRequest, pid: int, pid': int)
    returns (es: seq<Event>, last: Event)
    requires CanCreate(s, id, r) && TwoPids(s, pid, pid')
    ensures RowAt(Run(s, es), id).Some? && RowAt(Run(s, es), id).value.status == FailedStopping
    ensures RowAt(Run(s, es + [last]), id).Some? && RowAt(Run(s, es + [last]), id).value.status == Running
  {
    var front := ReachRunning(s, id, r, pid, pid');
    var s1 := Run(s, front);
    SettledCanFetch(s1, id, Running, pid);
    var back;
    back, last := StartOverwritesStop(s1, id, pid');
    es := Then(s, front, s1, back);
    var all := Then(s, front, s1, back + [last]);
    assert all == es + [last];
  }

  lemma StartOverwritesStop(s: Sys, id: Uuid, pid: int) returns (es: seq<Event>, last: Event)
    requires s.flights == map[] && CanFetch(s.w, id) && s.w.table[id].status == Running
    requires s.w.table[id].processId.Some? && Live(s.w, s.w.table[id].processId.value)
    requires 0 <= pid < PID_LIMIT && pid !in s.w.procs
    ensures RowAt(Run(s, es), id).Some? && RowAt(Run(s, es), id).value.status == FailedStopping
    ensures RowAt(Run(s, es + [last]), id).Some? && RowAt(Run(s, es + [last]), id).value.status == Running
  {
    var stop, start := Ticket(id, 1), Ticket(id, 2);
    es := StopAndStartMeet(s, stop, start, pid);
    var s1 := Run(s, es);
    WriteRuns(s1, stop, FailedStopping);
    es := Then(s, es, s1, [Move(stop, Ok)]);
    var s2 := Run(s, es);
    last := Move(start, Ok);
    WriteRuns(s2, start, Running);
    var _ := Then(s, es, s2, [last]);
  }

  /** The last step of a stop or a start. */
  lemma WriteRuns(s: Sys, t: Ticket, status: IndexerStatus)
    requires t in s.flights && t.id in s.w.table
    requires if status == Running then s.flights[t].StartRecord?
             else s.flights[t].StopWrite? && s.flights[t].target == status
    ensures var s' := Run(s, [Move(t, Ok)]);
            && t.id in s'.w.table && s'.w.table[t.id].status == status
            && forall u | u in s.flights && u != t :: u in s'.flights && s'.flights[u] == s.flights[u]
  {
    MoveRuns(s, t, Ok);
  }

  // -------------------------------------------------------------------------
  // A start overlapping a start
  // -------------------------------------------------------------------------

  lemma StartFetches(s: Sys, t: Ticket) returns (es: seq<Event>)
    requires t !in s.flights && t.n > 0 && CanFetch(s.w, t.id) && s.w.table[t.id].status == Stopped
    ensures var m, script := s.w.table[t.id], s.w.store[ScriptKey(t.id)];
            Run(s, es) == s.(flights := s.flights[t := StartCreateFile(None, m, script)])
  {
    var m, script := s.w.table[t.id], s.w.store[ScriptKey(t.id)];
    BeginRuns(s, t, StartRead(None));
    es := Quiet(s, s, [Begin(t, StartRead(None))], t, StartRead(None), Ok, StartFetch(None, m));
    es := Quiet(s, s, es, t, StartFetch(None, m), Ok, StartCreateFile(None, m, script));
  }

  /** One start has written its file and is about to spawn; another one of the same id empties it. */
  lemma StartMeetsStart(s: Sys, t: Ticket, u: Ticket) returns (es: seq<Event>)
    requires t !in s.flights && u !in s.flights && t != u && t.id == u.id && t.n > 0 && u.n > 0
    requires CanFetch(s.w, t.id) && s.w.table[t.id].status == Stopped
    ensures var s' := Run(s, es);
            && s'.w == AfterPart(s.w, t.id, []) && s'.born == s.born
            && t in s'.flights && s'.flights[t] == StartSpawn(None, s.w.table[t.id])
  {
    es := StartFetches(s, t);
    var s1 := Run(s, es);
    var write := WritesFile(s1, t);
    es := Then(s, es, s1, write);
    var s2 := Run(s, es);
    var fetch := StartFetches(s2, u);
    es := Then(s, es, s2, fetch);
    var s3 := Run(s, es);
    CreatesFile(s3, u);
    es := Then(s, es, s3, [Move(u, Ok)]);
  }

  lemma SpawnsOnEmpty(s: Sys, t: Ticket, pid: int)
    requires t in s.flights && s.flights[t].StartSpawn? && IsStartable(s.flights[t].snap)
    requires FreshPid(s.w, Working(pid))
    requires HasPart(s, t.id) && FileAt(s.w, t.id) == [] && s.born[t.id].data != []
    ensures var s' := Run(s, [Move(t, Spawned(pid))]);
            && Live(s'.w, pid) && s'.w.procs[pid].owner == Sink(t.id)
            && HasPart(s', t.id) && !HasFile(s', t.id) && FileAt(s'.w, t.id) == []
  {
    MoveRuns(s, t, Spawned(pid));
  }

  /** The first start then launches its sink on an empty script. */
  lemma OverlapSpawnsEmptyScript(s: Sys, id: Uuid, r: CreateIndexerRequest, pid: int, pid': int)
    returns (es: seq<Event>, last: Event)
    requires CanCreate(s, id, r) && TwoPids(s, pid, pid')
    ensures pid' !in Run(s, es).w.procs
    ensures var s' := Run(s, es + [last]);
            && Live(s'.w, pid') && s'.w.procs[pid'].owner == Sink(id)
            && HasPart(s', id) && !HasFile(s', id) && FileAt(s'.w, id) == []
  {
    var t := Ticket(id, 1);
    var front := ReachStopped(s, id, r, pid, pid');
    var s1 := Run(s, front);
    SettledCanFetch(s1, id, Stopped, pid);
    var back := StartMeetsStart(s1, t, Ticket(id, 2));
    es := Then(s, front, s1, back);
    var s2 := Run(s, es);
    assert HasScript(s1, id) && Accepted(s1.born[id]);
    last := Move(t, Spawned(pid'));
    SpawnsOnEmpty(s2, t, pid');
    var _ := Then(s, es, s2, [last]);
  }

  // -------------------------------------------------------------------------
  // A pid used again
  // -------------------------------------------------------------------------

  /** The recorded process dies, is reaped, and the system gives its pid to somebody else. */
  lemma PidIsReused(s: Sys, pid: int, owner: Owner) returns (es: seq<Event>)
    requires Live(s.w, pid) && s.w.procs[pid].owner == owner
    ensures Run(s, es) == s.(w := s.w.(procs := s.w.procs[pid := Proc(Foreign, Alive, None)]))
  {
    RunOfOne(s, Exit(pid, owner));
    var s1 := Next(s, Exit(pid, owner));
    RunOfOne(s1, Reap(pid, owner));
    es := Then(s, [Exit(pid, owner)], s1, [Reap(pid, owner)]);
    var s2 := Next(s1, Reap(pid, owner));
    RunOfOne(s2, Appear(pid));
    es := Then(s, es, s2, [Appear(pid)]);
    assert s2.w.procs[pid := Proc(Foreign, Alive, None)] == s.w.procs[pid := Proc(Foreign, Alive, None)];
  }

  lemma StopUpToKill(s: Sys, t: Ticket) returns (es: seq<Event>)
    requires t !in s.flights && t.n > 0 && t.id in s.w.table && s.w.table[t.id].status == Running
    requires s.w.table[t.id].processId.Some? && Live(s.w, s.w.table[t.id].processId.value)
    ensures var m := s.w.table[t.id];
            Run(s, es) == s.(flights := s.flights[t := StopKill(m, m.processId.value)])
  {
    var m := s.w.table[t.id];
    BeginRuns(s, t, StopRead);
    es := Quiet(s, s, [Begin(t, StopRead)], t, StopRead, Ok, StopCheck(m));
    es := Quiet(s, s, es, t, StopCheck(m), Ok, StopKill(m, m.processId.value));
  }

  lemma KillHits(s: Sys, t: Ticket)
    requires t in s.flights && s.flights[t].StopKill? && Taken(s.w, s.flights[t].pid)
    ensures var pid := s.flights[t].pid;
            Run(s, [Move(t, Ok)]).w == s.w.(procs := s.w.procs[pid := Signal(s.w.procs[pid])])
  {
    MoveRuns(s, t, Ok);
  }

  /** With a single handler in flight: a stop takes the process now under its pid for the sink, and signals it. */
  lemma ReusedPidIsSignalled(s: Sys, id: Uuid, r: CreateIndexerRequest, pid: int, pid': int)
    returns (es: seq<Event>, last: Event)
    requires CanCreate(s, id, r) && TwoPids(s, pid, pid')
    ensures Run(s, es).flights.Keys == {Ticket(id, 1)} && last == Move(Ticket(id, 1), Ok)
    ensures pid in Run(s, es).w.procs && Run(s, es).w.procs[pid] == Proc(Foreign, Alive, None)
    ensures pid in Run(s, es + [last]).w.procs && Run(s, es + [last]).w.procs[pid] == Proc(Foreign, Signalled, None)
  {
    var t := Ticket(id, 1);
    var front := ReachRunning(s, id, r, pid, pid');
    var s1 := Run(s, front);
    var reuse := PidIsReused(s1, pid, Sink(id));
    es := Then(s, front, s1, reuse);
    var s2 := Run(s, es);
    var stop := StopUpToKill(s2, t);
    es := Then(s, es, s2, stop);
    var s3 := Run(s, es);
    last := Move(t, Ok);
    KillHits(s3, t);
    var _ := Then(s, es, s3, [last]);
  }
}
