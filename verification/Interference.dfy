/**
 * What happens to a row between a handler's read and its write, in any interleaved run: exactly when a
 * delete removes a row that is no longer Stopped, and exactly when a start spawns on a whole script file.
 */
module Interference {
  import opened Wrappers
  import opened Domain
  import opened Request
  import opened Protocol
  import opened Interleaved
  import opened Guarantees
  import opened Orderly

  // -------------------------------------------------------------------------
  // Rows
  // -------------------------------------------------------------------------

  /** A write step that works and finds the row of `id`. */
  predicate WritesRow(s: Sys, e: Event, id: Uuid) {
    e.Move? && Enabled(s, e) && e.t.id == id && e.answer.Ok? && IsWrite(s.flights[e.t]) && id in s.w.table
  }

  predicate WritesAt(s: Sys, es: seq<Event>, k: nat, id: Uuid)
    requires k < |es|
  {
    WritesRow(Run(s, es[..k]), es[k], id)
  }

  /** Event k is the last write of the row strictly between events i and j. */
  predicate IsLastWrite(s: Sys, es: seq<Event>, i: nat, j: nat, id: Uuid, k: nat)
    requires j <= |es|
  {
    i < k < j && WritesAt(s, es, k, id) && forall l | k < l < j :: !WritesAt(s, es, l, id)
  }

  /** While some handler holds a row, only writes change it. */
  lemma OnlyWritesChange(s: Sys, e: Event, t: Ticket, m: IndexerModel)
    requires Inv(s) && Holds(s, t, m) && !WritesRow(s, e, t.id)
    ensures RowAt(Next(s, e), t.id) == RowAt(s, t.id)
  {
    if RowAt(Next(s, e), t.id) != RowAt(s, t.id) {
      ChangesAreExplained(s, e, t.id);
      assert IsEarlyCreate(s.flights[e.t]);
      assert false;
    }
  }

  /** Event k is the last write since the read at i, or the read itself if there was none. */
  predicate IsLatest(s: Sys, es: seq<Event>, i: nat, j: nat, id: Uuid, k: nat)
    requires j <= |es|
  {
    || IsLastWrite(s, es, i, j, id, k)
    || (k == i < j && forall l | i < l < j :: !WritesAt(s, es, l, id))
  }

  lemma LatestStays(s: Sys, es: seq<Event>, i: nat, j: nat, id: Uuid, k: nat)
    requires i < j < |es| && IsLatest(s, es, i, j, id, k) && !WritesAt(s, es, j, id)
    ensures IsLatest(s, es, i, j + 1, id, k)
  {
  }

  lemma HeldRowStays(s: Sys, es: seq<Event>, j: nat, t: Ticket, m: IndexerModel)
    requires Init(s) && j < |es| && Holds(Run(s, es[..j]), t, m) && !WritesAt(s, es, j, t.id)
    ensures RowAt(Run(s, es[..j + 1]), t.id) == RowAt(Run(s, es[..j]), t.id)
  {
    InitInv(s);
    RunKeepsInv(s, es[..j]);
    RunOneMore(s, es, j);
    OnlyWritesChange(Run(s, es[..j]), es[j], t, m);
  }

  lemma HeldBefore(s: Sys, es: seq<Event>, i: nat, j: nat, t: Ticket, m: IndexerModel)
    requires i < j < |es| && ReadBy(s, es, i, j + 1, t, m)
    ensures ReadBy(s, es, i, j, t, m) && Holds(Run(s, es[..j]), t, m)
  {
  }

  /** The latest write since a handler read its row decides what the row is while it holds it. */
  lemma {:induction false} RowSinceRead(s: Sys, es: seq<Event>, i: nat, j: nat, t: Ticket, m: IndexerModel)
    returns (k: nat)
    requires Init(s) && i < j <= |es| && ReadBy(s, es, i, j, t, m)
    ensures IsLatest(s, es, i, j, t.id, k) && RowAt(Run(s, es[..j]), t.id) == RowAt(Run(s, es[..k + 1]), t.id)
    decreases j
  {
    if j == i + 1 {
      k := i;
    } else if WritesAt(s, es, j - 1, t.id) {
      k := j - 1;
    } else {
      HeldBefore(s, es, i, j - 1, t, m);
      HeldRowStays(s, es, j - 1, t, m);
      k := RowSinceRead(s, es, i, j - 1, t, m);
      LatestStays(s, es, i, j - 1, t.id, k);
    }
  }

  lemma ReadLeavesRow(s: Sys, e: Event, t: Ticket, m: IndexerModel)
    requires Reads(s, e, t, m)
    ensures RowAt(Next(s, e), t.id) == Some(m)
  {
  }

  /** A handler writes at most once, after which it no longer holds a row. */
  lemma WriterIsAnother(s: Sys, e: Event, t: Ticket, m: IndexerModel)
    requires WritesRow(s, e, t.id) && Holds(Next(s, e), t, m)
    ensures e.t != t
  {
    if e.t == t {
      WritesDropSnap(s.w, t.id, s.flights[t], e.answer);
    }
  }

  predicate IsStopped(row: Option<IndexerModel>) {
    row.Some? && row.value.status == Stopped
  }

  /** A start, a fail, a delete, or a stop or update to another status than Stopped. */
  predicate IsUnstopping(pc: Pc) {
    || pc.StartRecord? || pc.FailWrite? || pc.DeleteWrite?
    || ((pc.StopWrite? || pc.UpdateWrite?) && pc.target != Stopped)
  }

  /** Event k, the last write between read and delete, is another handler's and takes the row out of Stopped. */
  predicate UnstoppedBy(s: Sys, es: seq<Event>, i: nat, j: nat, t: Ticket, k: nat)
    requires j <= |es|
  {
    IsLastWrite(s, es, i, j, t.id, k) && es[k].t != t && IsUnstopping(Run(s, es[..k]).flights[es[k].t])
  }

  /** What a write leaves is Stopped if and only if it writes that status. */
  lemma WriteUnstops(s: Sys, e: Event, id: Uuid)
    requires WritesRow(s, e, id)
    ensures IsStopped(RowAt(Next(s, e), id)) <==> !IsUnstopping(s.flights[e.t])
  {
    WriteEffect(s.w, id, s.flights[e.t]);
  }

  lemma WriteEffect(w: World, id: Uuid, pc: Pc)
    requires IsWrite(pc) && id in w.table
    ensures Decide(w, id, pc, Ok).effect ==
            if pc.DeleteWrite? then DropRow else SetRow(Written(pc, w.table[id]).value)
  {
  }

  lemma DeleteGoesThrough(s: Sys, t: Ticket)
    requires FlightsOk(s) && t in s.flights && s.flights[t].DeleteWrite?
    ensures s.flights[t].snap.status == Stopped && RowAt(Next(s, Move(t, Ok)), t.id).None?
  {
    assert PcOk(s, t, s.flights[t]);
  }

  /** A row read Stopped is no longer Stopped if and only if the latest write since took it out of Stopped. */
  lemma UnstoppedSince(s: Sys, es: seq<Event>, i: nat, j: nat, t: Ticket, m: IndexerModel)
    requires Init(s) && i < j <= |es| && ReadBy(s, es, i, j, t, m) && m.status == Stopped
    ensures !IsStopped(RowAt(Run(s, es[..j]), t.id)) <==> exists k: nat :: UnstoppedBy(s, es, i, j, t, k)
  {
    var k := RowSinceRead(s, es, i, j, t, m);
    RunOneMore(s, es, k);
    if k == i {
      ReadLeavesRow(Run(s, es[..i]), es[i], t, m);
    } else {
      assert Holds(Run(s, es[..k + 1]), t, m);
      WriterIsAnother(Run(s, es[..k]), es[k], t, m);
      WriteUnstops(Run(s, es[..k]), es[k], t.id);
      if !IsStopped(RowAt(Run(s, es[..j]), t.id)) {
        assert UnstoppedBy(s, es, i, j, t, k);
      }
    }
    forall l: nat | UnstoppedBy(s, es, i, j, t, l) ensures l == k {
      assert WritesAt(s, es, l, t.id);
    }
  }

  /**
   * Deletion, exactly. In every interleaved run, a delete that goes through read its row Stopped. At that
   * moment the row is no longer a Stopped one if and only if another handler wrote it since the read and
   * the last such write was that of a start, a fail, a delete, or of a stop or update to another status.
   */
  lemma DeletesUnstoppedExactly(s: Sys, es: seq<Event>, j: nat, t: Ticket) returns (i: nat)
    requires Init(s) && j < |es| && es[j] == Move(t, Ok)
    requires t in Run(s, es[..j]).flights && Run(s, es[..j]).flights[t].DeleteWrite?
    ensures var m := Run(s, es[..j]).flights[t].snap;
            m.status == Stopped && i < j && ReadBy(s, es, i, j, t, m)
    ensures RowAt(Run(s, es[..j + 1]), t.id).None?
    ensures !IsStopped(RowAt(Run(s, es[..j]), t.id)) <==> exists k: nat :: UnstoppedBy(s, es, i, j, t, k)
  {
    var m := Run(s, es[..j]).flights[t].snap;
    InitInv(s);
    RunKeepsInv(s, es[..j]);
    DeleteGoesThrough(Run(s, es[..j]), t);
    RunOneMore(s, es, j);
    i := SnapWasRead(s, es, j, t, m);
    UnstoppedSince(s, es, i, j, t, m);
  }

  // -------------------------------------------------------------------------
  // Script files
  // -------------------------------------------------------------------------

  /** The creation of the script file of `id`, which empties it. */
  predicate Truncates(s: Sys, e: Event, id: Uuid) {
    e.Move? && Enabled(s, e) && e.t.id == id && e.answer.Ok? && s.flights[e.t].StartCreateFile?
  }

  /** A write of the whole script that works. */
  predicate Fills(s: Sys, e: Event, id: Uuid) {
    e.Move? && Enabled(s, e) && e.t.id == id && e.answer.Ok? && s.flights[e.t].StartWriteFile?
  }

  predicate TruncatesAt(s: Sys, es: seq<Event>, l: nat, id: Uuid)
    requires l < |es|
  {
    Truncates(Run(s, es[..l]), es[l], id)
  }

  /** Event k wrote the whole script, and nobody emptied the file between it and event j. */
  predicate FilledSince(s: Sys, es: seq<Event>, k: nat, j: nat, id: Uuid)
    requires j <= |es|
  {
    k < j && Fills(Run(s, es[..k]), es[k], id) && forall l | k < l < j :: !TruncatesAt(s, es, l, id)
  }

  ghost predicate IsFilled(s: Sys, es: seq<Event>, j: nat, id: Uuid)
    requires j <= |es|
  {
    exists k: nat :: FilledSince(s, es, k, j, id)
  }

  /** A write of less than the script keeps a whole one whole and does not complete a shorter one. */
  lemma ShortWrite(file: Bytes, script: Bytes, a: Answer)
    requires file <= script && script != [] && !a.Ok?
    ensures Overwrite(file, Reaching(script, a)) == script <==> file == script
  {
  }

  /** One event: the file is whole after it if the event filled it, or did not empty a whole one. */
  lemma FileStep(s: Sys, e: Event, id: Uuid)
    requires Inv(s) && id in s.born
    ensures HasFile(Next(s, e), id) <==> Fills(s, e, id) || (HasFile(s, id) && !Truncates(s, e, id))
  {
    if e.Move? && Enabled(s, e) {
      FileOfMove(s, e.t, e.answer, id);
    } else if Enabled(s, e) {
      OtherFilesStay(s, e, id);
    }
  }

  lemma FileOfMove(s: Sys, t: Ticket, a: Answer, id: Uuid)
    requires Inv(s) && id in s.born && Enabled(s, Move(t, a))
    ensures HasFile(Next(s, Move(t, a)), id) <==>
            Fills(s, Move(t, a), id) || (HasFile(s, id) && !Truncates(s, Move(t, a), id))
  {
    if IsFilePc(s.flights[t]) && t.id == id {
      assert PcOk(s, t, s.flights[t]) && Accepted(s.born[id]);
      OwnFileMove(s, t, a);
    } else {
      OnlyFilePcsWrite(s.w, t.id, s.flights[t], a);
      OtherFilesStay(s, Move(t, a), id);
    }
  }

  lemma OnlyFilePcsWrite(w: World, id: Uuid, pc: Pc, a: Answer)
    ensures Decide(w, id, pc, a).effect.WriteScript? ==> IsFilePc(pc)
  {
  }

  lemma OwnFileMove(s: Sys, t: Ticket, a: Answer)
    requires Enabled(s, Move(t, a)) && IsFilePc(s.flights[t]) && PcOk(s, t, s.flights[t])
    requires t.id in s.born && s.born[t.id].data != []
    ensures HasFile(Next(s, Move(t, a)), t.id) <==>
            Fills(s, Move(t, a), t.id) || (HasFile(s, t.id) && !Truncates(s, Move(t, a), t.id))
  {
    if s.flights[t].StartWriteFile? && !a.Ok? {
      ShortWrite(FileAt(s.w, t.id), s.born[t.id].data, a);
    }
  }

  lemma TruncatedIsBorn(s: Sys, e: Event, id: Uuid)
    requires Inv(s) && Truncates(s, e, id)
    ensures id in s.born
  {
    assert PcOk(s, e.t, s.flights[e.t]);
  }

  lemma FilledOneMore(s: Sys, es: seq<Event>, j: nat, id: Uuid)
    requires j < |es|
    ensures IsFilled(s, es, j + 1, id) <==>
            Fills(Run(s, es[..j]), es[j], id) || (IsFilled(s, es, j, id) && !TruncatesAt(s, es, j, id))
  {
    if Fills(Run(s, es[..j]), es[j], id) {
      assert FilledSince(s, es, j, j + 1, id);
    } else {
      if IsFilled(s, es, j, id) && !TruncatesAt(s, es, j, id) {
        var k: nat :| FilledSince(s, es, k, j, id);
        assert FilledSince(s, es, k, j + 1, id);
      }
      if IsFilled(s, es, j + 1, id) {
        var k: nat :| FilledSince(s, es, k, j + 1, id);
        assert FilledSince(s, es, k, j, id);
      }
    }
  }

  ghost predicate WasTruncated(s: Sys, es: seq<Event>, j: nat, id: Uuid)
    requires j <= |es|
  {
    exists l: nat :: l < j && TruncatesAt(s, es, l, id)
  }

  lemma HistoryStep(s: Sys, es: seq<Event>, j: nat, id: Uuid)
    requires Init(s) && j < |es| && id in Run(s, es[..j]).born
    requires HasFile(Run(s, es[..j]), id) <==> IsFilled(s, es, j, id)
    ensures id in Run(s, es[..j + 1]).born
    ensures HasFile(Run(s, es[..j + 1]), id) <==> IsFilled(s, es, j + 1, id)
  {
    InitInv(s);
    RunKeepsInv(s, es[..j]);
    RunOneMore(s, es, j);
    FileStep(Run(s, es[..j]), es[j], id);
    FilledOneMore(s, es, j, id);
  }

  lemma HistoryBegins(s: Sys, es: seq<Event>, j: nat, id: Uuid)
    requires Init(s) && j < |es| && TruncatesAt(s, es, j, id)
    ensures id in Run(s, es[..j + 1]).born
    ensures !HasFile(Run(s, es[..j + 1]), id) && !IsFilled(s, es, j + 1, id)
  {
    InitInv(s);
    RunKeepsInv(s, es[..j]);
    RunOneMore(s, es, j);
    TruncatedIsBorn(Run(s, es[..j]), es[j], id);
    FileStep(Run(s, es[..j]), es[j], id);
    FilledOneMore(s, es, j, id);
  }

  /** Once a file was emptied, what filled and emptied it since says whether it is whole. */
  lemma {:induction false} FileHistory(s: Sys, es: seq<Event>, j: nat, id: Uuid)
    requires Init(s) && j <= |es| && WasTruncated(s, es, j, id)
    ensures id in Run(s, es[..j]).born && (HasFile(Run(s, es[..j]), id) <==> IsFilled(s, es, j, id))
    decreases j
  {
    if TruncatesAt(s, es, j - 1, id) {
      HistoryBegins(s, es, j - 1, id);
    } else {
      FileHistory(s, es, j - 1, id);
      HistoryStep(s, es, j - 1, id);
    }
  }

  /** A handler past its file's creation has emptied it. */
  predicate HasFileOpen(s: Sys, t: Ticket) {
    t in s.flights && (s.flights[t].StartWriteFile? || s.flights[t].StartSpawn?)
  }

  lemma FileOrigin(s: Sys, e: Event, t: Ticket)
    requires HasFileOpen(Next(s, e), t)
    ensures HasFileOpen(s, t) || Truncates(s, e, t.id)
  {
  }

  lemma {:induction false} OpenedWasTruncated(s: Sys, es: seq<Event>, j: nat, t: Ticket)
    requires Init(s) && j <= |es| && HasFileOpen(Run(s, es[..j]), t)
    ensures WasTruncated(s, es, j, t.id)
    decreases j
  {
    if j == 0 {
      assert false;
    } else {
      RunOneMore(s, es, j - 1);
      FileOrigin(Run(s, es[..j - 1]), es[j - 1], t);
      if HasFileOpen(Run(s, es[..j - 1]), t) {
        OpenedWasTruncated(s, es, j - 1, t);
      } else {
        assert TruncatesAt(s, es, j - 1, t.id);
      }
    }
  }

  /**
   * The script file, exactly. In every interleaved run, a start about to spawn finds at least a beginning
   * of the uploaded script in its file. It finds the whole script if and only if some start of that id wrote
   * it whole and no start of that id has created the file anew since.
   */
  lemma SpawnsWholeScriptExactly(s: Sys, es: seq<Event>, j: nat, t: Ticket)
    requires Init(s) && j <= |es|
    requires t in Run(s, es[..j]).flights && Run(s, es[..j]).flights[t].StartSpawn?
    ensures HasPart(Run(s, es[..j]), t.id)
    ensures HasFile(Run(s, es[..j]), t.id) <==> exists k: nat :: FilledSince(s, es, k, j, t.id)
  {
    InitInv(s);
    RunKeepsInv(s, es[..j]);
    assert PcOk(Run(s, es[..j]), t, Run(s, es[..j]).flights[t]);
    OpenedWasTruncated(s, es, j, t);
    FileHistory(s, es, j, t.id);
  }
}
