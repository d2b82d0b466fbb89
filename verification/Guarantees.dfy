/** What holds of every interleaved run, whatever overlaps, fails or is dropped. */
module Guarantees {
  import opened Wrappers
  import opened Domain
  import opened Request
  import opened IndexerTypes
  import opened Protocol
  import opened Interleaved
  import Decimal

  function RowAt(s: Sys, id: Uuid): Option<IndexerModel> {
    if id in s.w.table then Some(s.w.table[id]) else None
  }

  // -------------------------------------------------------------------------
  // Rows, scripts and processes
  // -------------------------------------------------------------------------

  /** Every visible row has its own script, as uploaded, and its fields as inserted. */
  lemma VisibleRowsAreComplete(s: Sys, es: seq<Event>, id: Uuid)
    requires Init(s) && id in Run(s, es).w.table
    ensures var s' := Run(s, es);
            var row := s'.w.table[id];
            && id in s'.born && ScriptKey(id) in s'.w.store && s'.w.store[ScriptKey(id)] == s'.born[id].data
            && SameIdentity(NewRow(id, s'.born[id]), row) && CarriesRequest(row, id, s'.born[id])
            && IsStartable(row) && (row.indexerType == Postgres ==> row.indexerId.Some?)
            && (row.status != Created ==> row.processId.Some? && 0 <= row.processId.value < 4_294_967_296)
  {
    InitInv(s);
    RunKeepsInv(s, es);
    assert Accepted(Run(s, es).born[id]);
  }

  /**
   * Handlers that look at a pid find one, no handler fails for want of a pid, a port or its kind's field, and
   * a start about to spawn has at least a beginning of the uploaded script in its file.
   */
  lemma HandlersNeverLackAPid(s: Sys, es: seq<Event>, t: Ticket)
    requires Init(s) && t in Run(s, es).flights
    ensures var pc := Run(s, es).flights[t];
            && (pc.StartCheck? || pc.StopCheck? || pc.UpdateCheck? ==> pc.snap.processId.Some?)
            && (pc.StartSpawn? ==> IsStartable(pc.snap) && HasPart(Run(s, es), t.id))
            && (pc.Done? && pc.result.Failure? ==>
                  pc.result.error !in
                  {InternalServerError(CHECK_WITHOUT_PID), Panicked(KindField), StatusServerPortNotFound})
  {
    InitInv(s);
    RunKeepsInv(s, es);
    var s' := Run(s, es);
    assert PcOk(s', t, s'.flights[t]);
    assert t.id in s'.born ==> Accepted(s'.born[t.id]);
  }

  /** Each sink process was launched for its row: STARTING_BLOCK parses back to the accepted block, or is 1. */
  lemma ProcessesRunTheirRow(s: Sys, es: seq<Event>, pid: int)
    requires Init(s) && pid in Run(s, es).w.procs && Run(s, es).w.procs[pid].owner.Sink?
    ensures var s' := Run(s, es);
            var id, command := s'.w.procs[pid].owner.id, s'.w.procs[pid].command;
            && id in s'.born && IsStartable(NewRow(id, s'.born[id]))
            && command == Some(CommandFor(s'.w.cfg, NewRow(id, s'.born[id])))
            && Decimal.ParseI64(command.value.startingBlock) == Some(OrElse(s'.born[id].startingBlock, 1))
            && (exists m :: IsFreshRow(m, id, s'.born[id]) && RunsRow(s'.w.cfg, m, command.value))
  {
    InitInv(s);
    RunKeepsInv(s, es);
    var s' := Run(s, es);
    assert ProcOk(s', s'.w.procs[pid]);
    var id := s'.w.procs[pid].owner.id;
    NewRowIsFresh(id, s'.born[id]);
    CommandRunsRow(s'.w.cfg, NewRow(id, s'.born[id]));
    Decimal.ParseOfText(OrElse(s'.born[s'.w.procs[pid].owner.id].startingBlock, 1));
  }

  /** From the form to the process: the block a sink is given is the one the last accepted field named. */
  lemma StartingBlockFidelity(
      fields: seq<Field>, port: Option<int>, s: Sys, es: seq<Event>, pid: int)
    requires Init(s) && pid in Run(s, es).w.procs && Run(s, es).w.procs[pid].owner.Sink?
    requires Run(s, es).w.procs[pid].owner.id in Run(s, es).born
    requires Builds(fields, port, Success(Run(s, es).born[Run(s, es).w.procs[pid].owner.id]))
    ensures var command, text := Run(s, es).w.procs[pid].command, Last(fields, "starting_block");
            && command.Some?
            && (text.Some? ==>
                  && Decimal.ParseI64(text.value.text).Some?
                  && Decimal.ParseI64(command.value.startingBlock) == Decimal.ParseI64(text.value.text))
            && (text.None? ==> command.value.startingBlock == "1")
  {
    ProcessesRunTheirRow(s, es, pid);
    var request := Run(s, es).born[Run(s, es).w.procs[pid].owner.id];
    BuildsExactly(fields, port, Success(request));
    LastIsAccepted(fields, "starting_block");
    Decimal.NatTextCanonical(1);
    assert Decimal.IntText(1) == "1";
  }

  predicate Carries(f: Field, name: string, content: Option<Content>) {
    f.Field? && f.name == Some(name) && f.content == content
  }

  lemma {:induction false} LastIsAccepted(fields: seq<Field>, name: string)
    requires AllAccepted(fields)
    ensures Last(fields, name).Some? ==>
      exists i :: 0 <= i < |fields| && Carries(fields[i], name, Last(fields, name))
  {
    if fields == [] {
    } else {
      var front, last := fields[..|fields| - 1], fields[|fields| - 1];
      if !(last.Field? && last.name == Some(name)) {
        LastIsAccepted(front, name);
        if Last(front, name).Some? {
          var i :| 0 <= i < |front| && Carries(front[i], name, Last(front, name));
          assert Carries(fields[i], name, Last(fields, name));
        }
      } else {
        assert Carries(fields[|fields| - 1], name, Last(fields, name));
      }
    }
  }

  // -------------------------------------------------------------------------
  // One event, one row
  // -------------------------------------------------------------------------

  /** The row a write leaves of the row it finds. */
  function Written(pc: Pc, row: IndexerModel): Option<IndexerModel> {
    match pc
    case StartRecord(_, _, pid) => Some(row.(status := Running, processId := Some(pid)))
    case StopWrite(_, target) => Some(row.(status := target))
    case FailWrite(_, _) => Some(row.(status := FailedRunning))
    case UpdateWrite(_, target) => Some(row.(status := target))
    case _ => None
  }

  predicate IsWrite(pc: Pc) {
    pc.StartRecord? || pc.StopWrite? || pc.FailWrite? || pc.UpdateWrite? || pc.DeleteWrite?
  }

  /** A table only changes by a commit of a fresh id, or by a write of a handler for that id. */
  predicate Explains(s: Sys, e: Event, id: Uuid) {
    && e.Move? && Enabled(s, e) && e.t.id == id && e.answer.Ok?
    && var pc := s.flights[e.t];
       if pc.CreateCommit? then RowAt(Next(s, e), id) == Some(NewRow(id, pc.request))
       else IsWrite(pc) && id in s.w.table && RowAt(Next(s, e), id) == Written(pc, s.w.table[id])
  }

  lemma StartWrites(w: World, id: Uuid, pc: Pc, a: Answer)
    requires IsStartPc(pc)
    ensures var e := DecideStart(w, id, pc, a).effect;
            && !e.DropRow?
            && (e.SetRow? ==> pc.StartRecord? && a.Ok? && id in w.table && Written(pc, w.table[id]) == Some(e.row))
  {
  }

  lemma OtherWrites(w: World, id: Uuid, pc: Pc, a: Answer)
    requires !IsStartPc(pc)
    ensures var e := Decide(w, id, pc, a).effect;
            && (e.DropRow? ==> pc.DeleteWrite? && a.Ok?)
            && (e.SetRow? ==>
                  && a.Ok?
                  && (pc.CreateCommit? ==> e.row == NewRow(id, pc.request))
                  && (!pc.CreateCommit? ==> IsWrite(pc) && id in w.table && Written(pc, w.table[id]) == Some(e.row)))
  {
  }

  /** The only process effects: a spawn, and the signal of a stop. */
  lemma SpawnsAndSignals(w: World, id: Uuid, pc: Pc, a: Answer)
    ensures var d := Decide(w, id, pc, a);
            d.effect.SetProc? ==>
              || (pc.StartSpawn? && a == Spawned(d.effect.pid) && d.effect.proc.owner == Sink(id)
                  && d.pc.StartRecord? && d.pc.pid == d.effect.pid)
              || (pc.StopKill? && pc.pid == d.effect.pid && d.effect.pid in w.procs
                  && d.effect.proc == Signal(w.procs[d.effect.pid]))
  {
  }

  lemma ChangesAreExplained(s: Sys, e: Event, id: Uuid)
    requires RowAt(s, id) != RowAt(Next(s, e), id)
    ensures Explains(s, e, id)
  {
    if e.Move? {
      var pc := s.flights[e.t];
      if IsStartPc(pc) {
        StartWrites(s.w, e.t.id, pc, e.answer);
      } else {
        OtherWrites(s.w, e.t.id, pc, e.answer);
      }
    }
  }

  /** Scripts and births stay, a pid is never lost, Created is never re-entered, deletion is final. */
  predicate Onward(s: Sys, s': Sys, id: Uuid) {
    && (id in s.born ==> id in s'.born && s'.born[id] == s.born[id])
    && (HasScript(s, id) ==> HasScript(s', id))
    && (id in s.w.table && id in s'.w.table ==>
          && SameIdentity(s.w.table[id], s'.w.table[id])
          && (s.w.table[id].processId.Some? ==> s'.w.table[id].processId.Some?)
          && (s.w.table[id].status != Created ==> s'.w.table[id].status != Created))
    && (id in s.born && !BeingCreated(s, id) ==>
          !BeingCreated(s', id) && (id !in s.w.table ==> id !in s'.w.table))
  }

  predicate BeingCreated(s: Sys, id: Uuid) {
    exists t :: t in s.flights && t.id == id && IsEarlyCreate(s.flights[t])
  }

  lemma RowStepOnward(s: Sys, e: Event, id: Uuid)
    requires Inv(s) && Inv(Next(s, e)) && id in s.w.table && id in Next(s, e).w.table
    ensures SameIdentity(s.w.table[id], Next(s, e).w.table[id])
    ensures s.w.table[id].processId.Some? ==> Next(s, e).w.table[id].processId.Some?
  {
    if RowAt(s, id) != RowAt(Next(s, e), id) {
      ChangesAreExplained(s, e, id);
      assert PcOk(s, e.t, s.flights[e.t]);
    }
  }

  lemma DeletionStepOnward(s: Sys, e: Event, id: Uuid)
    requires !BeingCreated(s, id)
    ensures id !in s.w.table ==> id !in Next(s, e).w.table
  {
    if id !in s.w.table && id in Next(s, e).w.table {
      ChangesAreExplained(s, e, id);
      assert false;
    }
  }

  lemma CreationStepOnward(s: Sys, e: Event, id: Uuid)
    requires id in s.born && !BeingCreated(s, id)
    ensures !BeingCreated(Next(s, e), id)
  {
    var s' := Next(s, e);
    if t :| t in s'.flights && t.id == id && IsEarlyCreate(s'.flights[t]) {
      if e.Move? && e.t == t {
        EarlyStaysEarly(s.w, id, s.flights[t], e.answer);
      }
      assert false;
    }
  }

  lemma ScriptStays(s: Sys, e: Event, id: Uuid)
    requires StoreOk(Next(s, e)) && HasScript(s, id)
    ensures HasScript(Next(s, e), id)
  {
  }

  lemma StepOnward(s: Sys, e: Event, id: Uuid)
    requires Inv(s)
    ensures Onward(s, Next(s, e), id)
  {
    NextKeepsInv(s, e);
    if id in s.w.table && id in Next(s, e).w.table {
      RowStepOnward(s, e, id);
      assert RowOk(s.w.table[id], id, s.born[id]);
    }
    if id in s.born && !BeingCreated(s, id) {
      CreationStepOnward(s, e, id);
      DeletionStepOnward(s, e, id);
    }
    if HasScript(s, id) {
      ScriptStays(s, e, id);
    }
  }

  lemma PresentRowIsCreated(s: Sys, id: Uuid)
    requires Inv(s) && id in s.w.table
    ensures id in s.born && !BeingCreated(s, id)
  {
    forall t | t in s.flights && IsEarlyCreate(s.flights[t]) ensures t.id !in s.w.table {
      assert PcOk(s, t, s.flights[t]);
    }
  }

  /** From any point of any run onward. */
  lemma {:induction false} RunOnward(s: Sys, es: seq<Event>, id: Uuid)
    requires Inv(s)
    ensures Onward(s, Run(s, es), id)
    decreases |es|
  {
    if es == [] {
    } else {
      var mid := Next(s, es[0]);
      NextKeepsInv(s, es[0]);
      StepOnward(s, es[0], id);
      RunOnward(mid, es[1..], id);
      if id in s.w.table {
        PresentRowIsCreated(s, id);
      }
    }
  }

  // -------------------------------------------------------------------------
  // Every write is justified by a read of the same handler
  // -------------------------------------------------------------------------

  /** The event is a read in which handler t finds row m. */
  predicate Reads(s: Sys, e: Event, t: Ticket, m: IndexerModel) {
    e == Move(t, Ok) && Enabled(s, e) && IsRead(s.flights[t]) && RowAt(s, t.id) == Some(m)
  }

  predicate Holds(s: Sys, t: Ticket, m: IndexerModel) {
    t in s.flights && SnapOf(s.flights[t]) == Some(m)
  }

  /** Event i is the read in which handler t found row m, and t holds it from there to event j. */
  predicate ReadBy(s: Sys, es: seq<Event>, i: nat, j: nat, t: Ticket, m: IndexerModel)
    requires i < j <= |es|
  {
    && Reads(Run(s, es[..i]), es[i], t, m)
    && forall k | i < k <= j :: Holds(Run(s, es[..k]), t, m)
  }

  /** The statuses that justify a write. */
  predicate Permits(pc: Pc, read: IndexerStatus) {
    match pc
    case StartRecord(_, _, _) => read != FailedStopping
    case StopWrite(_, _) => read == Running
    case FailWrite(_, _) => read == Running
    case DeleteWrite(_) => read == Stopped
    case UpdateWrite(_, target) => read == Running || read == target
    case _ => false
  }

  lemma SnapOrigin(s: Sys, e: Event, t: Ticket, m: IndexerModel)
    requires Holds(Next(s, e), t, m)
    ensures Holds(s, t, m) || Reads(s, e, t, m)
  {
    if e.Move? && e.t == t && Enabled(s, e) {
      SnapIsReadOrKept(s.w, t.id, s.flights[t], e.answer);
    }
  }

  lemma {:induction false} SnapWasRead(s: Sys, es: seq<Event>, j: nat, t: Ticket, m: IndexerModel) returns (i: nat)
    requires s.flights == map[] && j <= |es| && Holds(Run(s, es[..j]), t, m)
    ensures i < j && ReadBy(s, es, i, j, t, m)
    decreases j
  {
    if j == 0 {
      assert false;
    }
    var before, e := Run(s, es[..j - 1]), es[j - 1];
    RunOneMore(s, es, j - 1);
    SnapOrigin(before, e, t, m);
    if Holds(before, t, m) {
      i := SnapWasRead(s, es, j - 1, t, m);
    } else {
      i := j - 1;
    }
  }

  lemma WriterIsPermitted(s: Sys, t: Ticket)
    requires FlightsOk(s) && t in s.flights && IsWrite(s.flights[t])
    ensures SnapOf(s.flights[t]).Some? && Permits(s.flights[t], SnapOf(s.flights[t]).value.status)
  {
    assert PcOk(s, t, s.flights[t]);
  }

  /**
   * In every interleaved run from the empty service: whenever the row of `id` changes or disappears,
   * either its creation commits, or a handler for `id` writes it, and that same handler read the row
   * earlier in a status that permits the write.
   */
  lemma EveryWriteIsJustified(s: Sys, es: seq<Event>, j: nat, id: Uuid) returns (i: nat)
    requires Init(s) && j < |es|
    requires RowAt(Run(s, es[..j]), id) != RowAt(Run(s, es[..j + 1]), id)
    ensures Explains(Run(s, es[..j]), es[j], id)
    ensures var pc := Run(s, es[..j]).flights[es[j].t];
            !pc.CreateCommit? ==>
              && SnapOf(pc).Some?
              && i < j && ReadBy(s, es, i, j, es[j].t, SnapOf(pc).value)
              && Permits(pc, SnapOf(pc).value.status)
  {
    i := 0;
    var before := Run(s, es[..j]);
    RunOneMore(s, es, j);
    ChangesAreExplained(before, es[j], id);
    InitInv(s);
    RunKeepsInv(s, es[..j]);
    if !before.flights[es[j].t].CreateCommit? {
      WriterIsPermitted(before, es[j].t);
      i := SnapWasRead(s, es, j, es[j].t, SnapOf(before.flights[es[j].t]).value);
    }
  }
}
