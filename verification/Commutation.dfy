/** Events of different owners commute in orderly runs, so the events of one owner can be gathered in front. */
module Commutation {
  import opened Wrappers
  import opened Domain
  import opened Request
  import opened IndexerTypes
  import opened Protocol
  import opened Interleaved
  import opened Guarantees
  import opened Orderly
  import opened Pids

  /** Whose event it is: a handler's or a process's id, or the outside world. */
  function Who(e: Event): Owner {
    match e
    case Begin(t, _) => Sink(t.id)
    case Move(t, _) => Sink(t.id)
    case End(t) => Sink(t.id)
    case Exit(_, owner) => owner
    case Reap(_, owner) => owner
    case Appear(_) => Foreign
  }

  // -------------------------------------------------------------------------
  // Events of different owners commute
  // -------------------------------------------------------------------------

  /** Two effects that touch different rows, keys and pids. */
  predicate Apart(a: Uuid, e: Effect, b: Uuid, f: Effect) {
    && (e.SetProc? && f.SetProc? ==> e.pid != f.pid)
    && (!e.SetProc? && !f.SetProc? && !e.NoEffect? && !f.NoEffect? ==> a != b)
  }

  function TableAfter(table: map<Uuid, IndexerModel>, id: Uuid, e: Effect): map<Uuid, IndexerModel> {
    match e
    case SetRow(row) => table[id := row]
    case DropRow => table - {id}
    case _ => table
  }

  function TextsAfter(texts: map<string, Bytes>, key: string, change: Option<Bytes>): map<string, Bytes> {
    if change.Some? then texts[key := change.value] else texts
  }

  function ProcsAfter(procs: map<int, Proc>, e: Effect): map<int, Proc> {
    if e.SetProc? then procs[e.pid := e.proc] else procs
  }

  function ScriptOf(e: Effect): Option<Bytes> {
    if e.PutScript? then Some(e.bytes) else None
  }

  function FileOf(e: Effect): Option<Bytes> {
    if e.WriteScript? then Some(e.bytes) else None
  }

  lemma ApplyByParts(w: World, id: Uuid, e: Effect)
    ensures Apply(w, id, e) == World(
        w.cfg,
        TableAfter(w.table, id, e),
        TextsAfter(w.store, ScriptKey(id), ScriptOf(e)),
        TextsAfter(w.files, ScriptTmpPath(w.cfg.tmp, id), FileOf(e)),
        ProcsAfter(w.procs, e))
  {
  }

  lemma TablesCommute(table: map<Uuid, IndexerModel>, a: Uuid, e: Effect, b: Uuid, f: Effect)
    requires Apart(a, e, b, f)
    ensures TableAfter(TableAfter(table, a, e), b, f) == TableAfter(TableAfter(table, b, f), a, e)
  {
  }

  lemma TextsCommute(texts: map<string, Bytes>, k: string, c: Option<Bytes>, l: string, d: Option<Bytes>)
    requires c.Some? && d.Some? ==> k != l
    ensures TextsAfter(TextsAfter(texts, k, c), l, d) == TextsAfter(TextsAfter(texts, l, d), k, c)
  {
  }

  lemma ProcsCommute(procs: map<int, Proc>, e: Effect, f: Effect)
    requires e.SetProc? && f.SetProc? ==> e.pid != f.pid
    ensures ProcsAfter(ProcsAfter(procs, e), f) == ProcsAfter(ProcsAfter(procs, f), e)
  {
  }

  lemma EffectsCommute(w: World, a: Uuid, e: Effect, b: Uuid, f: Effect)
    requires Apart(a, e, b, f)
    ensures Apply(Apply(w, a, e), b, f) == Apply(Apply(w, b, f), a, e)
  {
    KeysInjective(w.cfg.tmp, a, b);
    ApplyByParts(w, a, e);
    ApplyByParts(w, b, f);
    ApplyByParts(Apply(w, a, e), b, f);
    ApplyByParts(Apply(w, b, f), a, e);
    TablesCommute(w.table, a, e, b, f);
    TextsCommute(w.store, ScriptKey(a), ScriptOf(e), ScriptKey(b), ScriptOf(f));
    TextsCommute(w.files, ScriptTmpPath(w.cfg.tmp, a), FileOf(e), ScriptTmpPath(w.cfg.tmp, b), FileOf(f));
    ProcsCommute(w.procs, e, f);
  }

  /** What a step reads of the world. */
  predicate SameView(w: World, v: World, id: Uuid, pc: Pc, a: Answer) {
    && w.cfg == v.cfg
    && (id in w.table <==> id in v.table) && (id in w.table ==> w.table[id] == v.table[id])
    && (ScriptKey(id) in w.store <==> ScriptKey(id) in v.store)
    && (ScriptKey(id) in w.store ==> w.store[ScriptKey(id)] == v.store[ScriptKey(id)])
    && (pc.StartWriteFile? ==> FileAt(w, id) == FileAt(v, id))
    && (SnapOf(pc).Some? && SnapOf(pc).value.processId.Some? ==> SameProc(w, v, SnapOf(pc).value.processId.value))
    && (pc.StopKill? ==> SameProc(w, v, pc.pid))
    && (pc.StartSpawn? && a.Spawned? ==> (Taken(w, a.newPid) <==> Taken(v, a.newPid)))
  }

  predicate SameProc(w: World, v: World, pid: int) {
    (pid in w.procs <==> pid in v.procs) && (pid in w.procs ==> w.procs[pid] == v.procs[pid])
  }

  lemma DecideBySameView(w: World, v: World, id: Uuid, pc: Pc, a: Answer)
    requires SameView(w, v, id, pc, a)
    ensures Decide(w, id, pc, a) == Decide(v, id, pc, a)
  {
    if IsStartPc(pc) {
      StartBySameView(w, v, id, pc, a);
    } else if IsStopPc(pc) {
      StopBySameView(w, v, id, pc, a);
    }
  }

  lemma StartBySameView(w: World, v: World, id: Uuid, pc: Pc, a: Answer)
    requires IsStartPc(pc) && SameView(w, v, id, pc, a)
    ensures DecideStart(w, id, pc, a) == DecideStart(v, id, pc, a)
  {
  }

  lemma StopBySameView(w: World, v: World, id: Uuid, pc: Pc, a: Answer)
    requires IsStopPc(pc) && SameView(w, v, id, pc, a)
    ensures DecideStop(w, id, pc, a) == DecideStop(v, id, pc, a)
  {
  }

  /** The processes an event touches or reads belong to its owner, or are new. */
  lemma TouchedPid(s: Sys, e: Event)
    requires Ordered(s) && IsOrderly(s, e) && EffectOf(s, e).SetProc?
    ensures var pid := EffectOf(s, e).pid;
            pid in s.w.procs ==> s.w.procs[pid].owner == Who(e)
    ensures EffectOf(s, e).proc.owner == Who(e)
  {
    if e.Move? {
      SpawnsAndSignals(s.w, e.t.id, s.flights[e.t], e.answer);
      assert FlightOwned(s, e.t.id, s.flights[e.t]);
    }
  }

  lemma RowsUntouched(s: Sys, e: Event, id: Uuid)
    requires Who(e) != Sink(id)
    ensures RowAt(s, id) == RowAt(Next(s, e), id)
  {
    if RowAt(s, id) != RowAt(Next(s, e), id) {
      ChangesAreExplained(s, e, id);
    }
  }

  lemma ScriptsUntouched(s: Sys, e: Event, id: Uuid)
    requires Who(e) != Sink(id)
    ensures var key, s' := ScriptKey(id), Next(s, e);
            && (key in s.w.store <==> key in s'.w.store)
            && (key in s.w.store ==> s.w.store[key] == s'.w.store[key])
            && FileAt(s'.w, id) == FileAt(s.w, id)
            && s'.w.cfg == s.w.cfg
  {
    KeysInjective(s.w.cfg.tmp, IdOf(e), id);
    if Enabled(s, e) {
      ApplyByParts(s.w, IdOf(e), EffectOf(s, e));
    }
  }

  lemma ProcsUntouched(s: Sys, e: Event, id: Uuid, pid: int)
    requires Ordered(s) && IsOrderly(s, e) && Who(e) != Sink(id) && OwnedPid(s, id, pid)
    ensures SameProc(s.w, Next(s, e).w, pid)
  {
    ApplyByParts(s.w, IdOf(e), EffectOf(s, e));
    if EffectOf(s, e).SetProc? {
      TouchedPid(s, e);
    }
  }

  /** An event of one owner leaves alone what a handler of another owner reads. */
  lemma ViewUntouched(s: Sys, e: Event, t: Ticket, a: Answer)
    requires Ordered(s) && IsOrderly(s, e) && t in s.flights && Who(e) != Sink(t.id)
    requires s.flights[t].StartSpawn? && a.Spawned? ==> a.newPid !in s.w.procs && a.newPid !in Next(s, e).w.procs
    ensures SameView(s.w, Next(s, e).w, t.id, s.flights[t], a)
  {
    RowsUntouched(s, e, t.id);
    ScriptsUntouched(s, e, t.id);
    assert FlightOwned(s, t.id, s.flights[t]);
    var snap := SnapOf(s.flights[t]);
    if snap.Some? && snap.value.processId.Some? {
      ProcsUntouched(s, e, t.id, snap.value.processId.value);
    }
    if s.flights[t].StopKill? {
      ProcsUntouched(s, e, t.id, s.flights[t].pid);
    }
  }

  lemma NewPidBefore(s: Sys, e: Event, f: Event)
    requires IsOrderly(s, e) && NewPid(Next(s, e), f) && Who(e) != Who(f)
    ensures NewPid(s, f)
  {
    ApplyByParts(s.w, IdOf(e), EffectOf(s, e));
  }

  lemma MoveBefore(s: Sys, e: Event, t: Ticket, a: Answer)
    requires Ordered(s) && IsOrderly(s, e) && IsOrderly(Next(s, e), Move(t, a)) && Who(e) != Sink(t.id)
    ensures IsOrderly(s, Move(t, a)) && Next(s, e).flights[t] == s.flights[t]
    ensures Decide(s.w, t.id, s.flights[t], a) == Decide(Next(s, e).w, t.id, s.flights[t], a)
  {
    NewPidBefore(s, e, Move(t, a));
    ViewUntouched(s, e, t, a);
    DecideBySameView(s.w, Next(s, e).w, t.id, s.flights[t], a);
  }

  lemma BeginBefore(s: Sys, e: Event, t: Ticket, call: Pc)
    requires Ordered(s) && IsOrderly(s, e) && IsOrderly(Next(s, e), Begin(t, call)) && Who(e) != Sink(t.id)
    ensures IsOrderly(s, Begin(t, call))
  {
    ScriptsUntouched(s, e, t.id);
    forall u | u in s.flights ensures u.id != t.id {
      if u !in Next(s, e).flights {
        assert e == End(u);
      }
    }
  }

  lemma ExitBefore(s: Sys, e: Event, pid: int, owner: Owner)
    requires Ordered(s) && IsOrderly(s, e) && Who(e) != owner
    requires pid in Next(s, e).w.procs && Next(s, e).w.procs[pid].owner == owner
    ensures SameProc(s.w, Next(s, e).w, pid)
  {
    ProcOfEffect(s.w, IdOf(e), EffectOf(s, e), pid);
    if EffectOf(s, e).SetProc? {
      TouchedPid(s, e);
    }
  }

  /** An effect sets at most the process it names. */
  lemma ProcOfEffect(w: World, id: Uuid, e: Effect, pid: int)
    ensures if e.SetProc? && e.pid == pid then pid in Apply(w, id, e).procs && Apply(w, id, e).procs[pid] == e.proc
            else SameProc(w, Apply(w, id, e), pid)
  {
  }

  /** A later event of another owner was orderly before an earlier one too, with the same outcome. */
  lemma SwapEnabled(s: Sys, e: Event, f: Event)
    requires Ordered(s) && IsOrderly(s, e) && IsOrderly(Next(s, e), f) && Who(e) != Who(f)
    ensures IsOrderly(s, f)
    ensures EffectOf(s, f) == EffectOf(Next(s, e), f)
    ensures f.Move? ==> Decide(s.w, f.t.id, s.flights[f.t], f.answer).pc ==
                        Decide(Next(s, e).w, f.t.id, Next(s, e).flights[f.t], f.answer).pc
  {
    match f {
      case Move(t, a) => MoveBefore(s, e, t, a);
      case Begin(t, call) => BeginBefore(s, e, t, call);
      case End(_) =>
      case Exit(pid, owner) => ExitBefore(s, e, pid, owner);
      case Reap(pid, owner) => ExitBefore(s, e, pid, owner);
      case Appear(_) => NewPidBefore(s, e, f);
    }
  }

  // -------------------------------------------------------------------------
  // Swapping two neighbours
  // -------------------------------------------------------------------------

  /** A spawn or a foreign process takes its new pid; everything else acts on processes that are there. */
  lemma NewPidStays(s: Sys, e: Event, f: Event)
    requires Ordered(s) && IsOrderly(s, e) && IsOrderly(Next(s, e), f) && IsOrderly(s, f) && Who(e) != Who(f)
    ensures NewPid(Next(s, f), e)
  {
    ApplyByParts(s.w, IdOf(f), EffectOf(s, f));
    ApplyByParts(s.w, IdOf(e), EffectOf(s, e));
    if EffectOf(s, f).SetProc? {
      TouchedPid(s, f);
      NewPidsDiffer(s, e, f);
    }
  }

  /** A process effect is on a process that is there, or on the pid of a spawn or a foreign start. */
  lemma ProcEffectKinds(s: Sys, e: Event)
    requires IsOrderly(s, e) && EffectOf(s, e).SetProc?
    ensures var pid := EffectOf(s, e).pid;
            || pid in s.w.procs
            || (e.Move? && s.flights[e.t].StartSpawn? && e.answer == Spawned(pid))
            || (e.Appear? && e.pid == pid)
  {
    if e.Move? {
      SpawnsAndSignals(s.w, e.t.id, s.flights[e.t], e.answer);
    }
  }

  /** No later event takes the pid an earlier one put in the process table. */
  lemma NotTakenAgain(s: Sys, e: Event, f: Event, pid: int)
    requires IsOrderly(s, f) && NewPid(Next(s, e), f) && Who(e) != Who(f) && EffectOf(s, f).SetProc?
    requires pid !in s.w.procs && pid in Next(s, e).w.procs
    ensures EffectOf(s, f).pid != pid
  {
    ProcEffectKinds(s, f);
  }

  lemma NewPidsDiffer(s: Sys, e: Event, f: Event)
    requires Inv(s) && IsOrderly(s, e) && NewPid(Next(s, e), f) && IsOrderly(s, f) && Who(e) != Who(f)
    requires EffectOf(s, f).SetProc?
    ensures e.Move? && e.answer.Spawned? && s.flights[e.t].StartSpawn? ==> EffectOf(s, f).pid != e.answer.newPid
    ensures e.Appear? ==> EffectOf(s, f).pid != e.pid
  {
    if e.Move? && e.answer.Spawned? && s.flights[e.t].StartSpawn? {
      NewlySpawnedDiffers(s, e.t, e.answer.newPid, f);
    } else if e.Appear? {
      NewlyAppearedDiffers(s, e.pid, f);
    }
  }

  lemma NewlyAppearedDiffers(s: Sys, pid: int, f: Event)
    requires IsOrderly(s, Appear(pid)) && NewPid(Next(s, Appear(pid)), f) && IsOrderly(s, f) && Who(f) != Foreign
    requires EffectOf(s, f).SetProc?
    ensures EffectOf(s, f).pid != pid
  {
    NotTakenAgain(s, Appear(pid), f, pid);
  }

  lemma NewlySpawnedDiffers(s: Sys, t: Ticket, pid: int, f: Event)
    requires Inv(s) && IsOrderly(s, Move(t, Spawned(pid))) && s.flights[t].StartSpawn?
    requires NewPid(Next(s, Move(t, Spawned(pid))), f) && IsOrderly(s, f) && Sink(t.id) != Who(f)
    requires EffectOf(s, f).SetProc?
    ensures EffectOf(s, f).pid != pid
  {
    SnapIsStartable(s, t);
    SpawnSucceeds(s, t, pid);
    NotTakenAgain(s, Move(t, Spawned(pid)), f, pid);
  }

  lemma SpawnSucceeds(s: Sys, t: Ticket, pid: int)
    requires NewPid(s, Move(t, Spawned(pid))) && t in s.flights && s.flights[t].StartSpawn?
    requires IsStartable(s.flights[t].snap)
    ensures pid in Next(s, Move(t, Spawned(pid))).w.procs
  {
  }

  lemma SnapIsStartable(s: Sys, t: Ticket)
    requires Inv(s) && t in s.flights && s.flights[t].StartSpawn?
    ensures IsStartable(s.flights[t].snap)
  {
    assert PcOk(s, t, s.flights[t]);
    assert Accepted(s.born[t.id]);
  }

  /** An event stays orderly, with the same outcome, after one of another owner. */
  lemma StaysOrderly(s: Sys, f: Event, e: Event)
    requires Ordered(s) && IsOrderly(s, f) && IsOrderly(s, e) && NewPid(Next(s, f), e) && Who(e) != Who(f)
    ensures IsOrderly(Next(s, f), e)
    ensures EffectOf(Next(s, f), e) == EffectOf(s, e)
    ensures e.Move? ==> Decide(s.w, e.t.id, s.flights[e.t], e.answer).pc ==
                        Decide(Next(s, f).w, e.t.id, Next(s, f).flights[e.t], e.answer).pc
  {
    match e {
      case Move(t, a) => MoveAfter(s, f, t, a);
      case Begin(t, call) => BeginAfter(s, f, t, call);
      case End(_) =>
      case Exit(pid, owner) => OwnProcAfter(s, f, pid, owner);
      case Reap(pid, owner) => OwnProcAfter(s, f, pid, owner);
      case Appear(_) =>
    }
  }

  lemma MoveAfter(s: Sys, f: Event, t: Ticket, a: Answer)
    requires Ordered(s) && IsOrderly(s, f) && IsOrderly(s, Move(t, a)) && NewPid(Next(s, f), Move(t, a))
    requires Sink(t.id) != Who(f)
    ensures IsOrderly(Next(s, f), Move(t, a)) && Next(s, f).flights[t] == s.flights[t]
    ensures Decide(s.w, t.id, s.flights[t], a) == Decide(Next(s, f).w, t.id, s.flights[t], a)
  {
    ViewUntouched(s, f, t, a);
    DecideBySameView(s.w, Next(s, f).w, t.id, s.flights[t], a);
  }

  lemma BeginAfter(s: Sys, f: Event, t: Ticket, call: Pc)
    requires Ordered(s) && IsOrderly(s, f) && IsOrderly(s, Begin(t, call)) && Who(f) != Sink(t.id)
    ensures IsOrderly(Next(s, f), Begin(t, call))
  {
    ScriptsUntouched(s, f, t.id);
  }

  lemma OwnProcAfter(s: Sys, f: Event, pid: int, owner: Owner)
    requires Ordered(s) && IsOrderly(s, f) && Who(f) != owner
    requires pid in s.w.procs && s.w.procs[pid].owner == owner
    ensures SameProc(s.w, Next(s, f).w, pid)
  {
    ProcOfEffect(s.w, IdOf(f), EffectOf(s, f), pid);
    if EffectOf(s, f).SetProc? {
      TouchedPid(s, f);
    }
  }

  lemma EffectsApart(s: Sys, e: Event, f: Event)
    requires Ordered(s) && IsOrderly(s, e) && IsOrderly(Next(s, e), f) && IsOrderly(s, f) && Who(e) != Who(f)
    ensures Apart(IdOf(e), EffectOf(s, e), IdOf(f), EffectOf(s, f))
  {
    if EffectOf(s, e).SetProc? && EffectOf(s, f).SetProc? {
      TouchedPid(s, e);
      TouchedPid(s, f);
      NewPidsDiffer(s, e, f);
      ProcEffectKinds(s, e);
    }
  }

  /** Four orderly steps with the same outcomes either way round. */
  predicate Square(s: Sys, e: Event, f: Event) {
    && Who(e) != Who(f)
    && Enabled(s, e) && Enabled(s, f) && Enabled(Next(s, e), f) && Enabled(Next(s, f), e)
    && EffectOf(Next(s, e), f) == EffectOf(s, f) && EffectOf(Next(s, f), e) == EffectOf(s, e)
    && (f.Move? ==> FlightsAfter(Next(s, e), f)[f.t] == FlightsAfter(s, f)[f.t])
    && (e.Move? ==> FlightsAfter(Next(s, f), e)[e.t] == FlightsAfter(s, e)[e.t])
  }

  lemma SwapSquare(s: Sys, e: Event, f: Event)
    requires Ordered(s) && IsOrderly(s, e) && IsOrderly(Next(s, e), f) && Who(e) != Who(f)
    ensures IsOrderly(s, f) && IsOrderly(Next(s, f), e) && Square(s, e, f)
  {
    SwapEnabled(s, e, f);
    NewPidStays(s, e, f);
    StaysOrderly(s, f, e);
  }

  lemma SwapFlights(s: Sys, e: Event, f: Event)
    requires Square(s, e, f)
    ensures Next(Next(s, e), f).flights == Next(Next(s, f), e).flights
  {
    var left, right := Next(Next(s, e), f).flights, Next(Next(s, f), e).flights;
    assert left.Keys == right.Keys;
    forall t | t in left ensures left[t] == right[t] {
    }
  }

  lemma SwapBorn(s: Sys, e: Event, f: Event)
    requires Square(s, e, f)
    ensures Next(Next(s, e), f).born == Next(Next(s, f), e).born
  {
  }

  lemma SwapWorlds(s: Sys, e: Event, f: Event)
    requires Square(s, e, f) && Apart(IdOf(e), EffectOf(s, e), IdOf(f), EffectOf(s, f))
    ensures Next(Next(s, e), f).w == Next(Next(s, f), e).w
  {
    EffectsCommute(s.w, IdOf(e), EffectOf(s, e), IdOf(f), EffectOf(s, f));
  }

  /** Neighbouring events of different owners can be exchanged. */
  lemma Swap(s: Sys, e: Event, f: Event)
    requires Ordered(s) && IsOrderly(s, e) && IsOrderly(Next(s, e), f) && Who(e) != Who(f)
    ensures IsOrderly(s, f) && IsOrderly(Next(s, f), e)
    ensures Next(Next(s, e), f) == Next(Next(s, f), e)
  {
    SwapSquare(s, e, f);
    EffectsApart(s, e, f);
    SwapWorlds(s, e, f);
    SwapBorn(s, e, f);
    SwapFlights(s, e, f);
  }

  // -------------------------------------------------------------------------
  // Gathering an owner's events
  // -------------------------------------------------------------------------

  function Only(es: seq<Event>, who: Owner): seq<Event> {
    if es == [] then []
    else if Who(es[0]) == who then [es[0]] + Only(es[1..], who)
    else Only(es[1..], who)
  }

  function Without(es: seq<Event>, who: Owner): (r: seq<Event>)
    ensures |r| <= |es|
    ensures es != [] && Who(es[0]) == who ==> |r| < |es|
  {
    if es == [] then []
    else if Who(es[0]) == who then Without(es[1..], who)
    else [es[0]] + Without(es[1..], who)
  }

  /** An event steps behind the first of the events that follow it. */
  lemma StepBehind(s: Sys, e: Event, f: Event, rest: seq<Event>)
    requires Ordered(s) && OrderlyRun(s, [e] + ([f] + rest)) && Who(e) != Who(f)
    ensures Ordered(Next(s, f)) && OrderlyRun(Next(s, f), [e] + rest) && IsOrderly(s, f)
    ensures Run(Next(s, f), [e] + rest) == Run(s, [e] + ([f] + rest))
  {
    FirstStep(s, e, [f] + rest);
    FirstStep(Next(s, e), f, rest);
    Swap(s, e, f);
    NextOrdered(s, f);
    FirstStep(Next(s, f), e, rest);
  }

  /** An event can move behind any number of events of another owner. */
  lemma {:induction false} MoveBehind(s: Sys, e: Event, fs: seq<Event>, who: Owner)
    requires Ordered(s) && OrderlyRun(s, [e] + fs)
    requires Who(e) != who && forall i | 0 <= i < |fs| :: Who(fs[i]) == who
    ensures OrderlyRun(s, fs + [e]) && Run(s, fs + [e]) == Run(s, [e] + fs)
    decreases |fs|, 1
  {
    if fs == [] {
      assert [e] + fs == fs + [e];
    } else {
      assert fs == [fs[0]] + fs[1..];
      MoveBehindHead(s, e, fs[0], fs[1..], who);
    }
  }

  lemma Rejoin(f: Event, rest: seq<Event>, e: Event)
    ensures [f] + rest + [e] == [f] + (rest + [e])
  {
  }

  lemma {:induction false} MoveBehindHead(s: Sys, e: Event, f: Event, rest: seq<Event>, who: Owner)
    requires Ordered(s) && OrderlyRun(s, [e] + ([f] + rest))
    requires Who(e) != who && Who(f) == who && forall i | 0 <= i < |rest| :: Who(rest[i]) == who
    ensures OrderlyRun(s, [f] + rest + [e]) && Run(s, [f] + rest + [e]) == Run(s, [e] + ([f] + rest))
    decreases |rest| + 1, 0
  {
    StepBehind(s, e, f, rest);
    MoveBehind(Next(s, f), e, rest, who);
    FirstStep(s, f, rest + [e]);
    Rejoin(f, rest, e);
  }

  lemma {:induction false} OnlyIsOwn(es: seq<Event>, who: Owner)
    ensures forall i | 0 <= i < |Only(es, who)| :: Who(Only(es, who)[i]) == who
  {
    if es == [] {
    } else {
      OnlyIsOwn(es[1..], who);
    }
  }

  /** ... with more events following. */
  lemma MoveBehindThen(s: Sys, e: Event, own: seq<Event>, others: seq<Event>, who: Owner)
    requires Ordered(s) && OrderlyRun(s, [e] + (own + others))
    requires Who(e) != who && forall i | 0 <= i < |own| :: Who(own[i]) == who
    ensures OrderlyRun(s, own + ([e] + others))
    ensures Run(s, own + ([e] + others)) == Run(s, [e] + (own + others))
  {
    assert [e] + (own + others) == ([e] + own) + others;
    assert own + ([e] + others) == (own + [e]) + others;
    OrderlyConcat(s, [e] + own, others);
    RunOfConcat(s, [e] + own, others);
    MoveBehind(s, e, own, who);
    OrderlyConcat(s, own + [e], others);
    RunOfConcat(s, own + [e], others);
  }

  /** An owner's events can all go first. */
  lemma {:induction false} Gather(s: Sys, es: seq<Event>, who: Owner)
    requires Ordered(s) && OrderlyRun(s, es)
    ensures OrderlyRun(s, Only(es, who) + Without(es, who))
    ensures Run(s, Only(es, who) + Without(es, who)) == Run(s, es)
    decreases |es|
  {
    if es == [] {
    } else {
      var e, rest := es[0], es[1..];
      var own, others := Only(rest, who), Without(rest, who);
      NextOrdered(s, e);
      Gather(Next(s, e), rest, who);
      FirstStep(s, e, own + others);
      if Who(e) == who {
        assert [e] + own + others == [e] + (own + others);
      } else {
        OnlyIsOwn(rest, who);
        MoveBehindThen(s, e, own, others, who);
      }
    }
  }
}
