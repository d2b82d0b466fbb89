/** Ids, statuses, the typed row and the error values of the service. */
module Domain {
  import opened Wrappers
  import Hex

  // -------------------------------------------------------------------------
  // Ids and the per-id keys
  // -------------------------------------------------------------------------

  type Uuid = n: nat | n < Hex.TWO_128

  /** The hyphenated lower-case text of an id. */
  function UuidText(id: Uuid): string {
    var d := Hex.Fixed(id, 32);
    d[..8] + "-" + d[8..12] + "-" + d[12..16] + "-" + d[16..20] + "-" + d[20..]
  }

  const SCRIPTS_FOLDER := "apibara-scripts"

  function ScriptKey(id: Uuid): string {
    SCRIPTS_FOLDER + "/" + UuidText(id) + ".js"
  }

  function ScriptTmpPath(tmp: string, id: Uuid): string {
    tmp + "/" + UuidText(id) + ".js"
  }

  lemma PowersOfSixteen()
    ensures Hex.Pow16(32) == Hex.TWO_128
  {
    assert Hex.Pow16(8) == 0x1_0000_0000;
    assert Hex.Pow16(16) == 0x1_0000_0000_0000_0000;
    assert Hex.Pow16(24) == 0x1_0000_0000_0000_0000_0000_0000;
  }

  lemma DashedSlices(d: string, t: string)
    requires |d| == 32 && t == d[..8] + "-" + d[8..12] + "-" + d[12..16] + "-" + d[16..20] + "-" + d[20..]
    ensures |t| == 36 && t[8] == '-' && t[13] == '-' && t[18] == '-' && t[23] == '-'
    ensures t[..8] + t[9..13] + t[14..18] + t[19..23] + t[24..] == d
  {
    assert t[..8] == d[..8];
    assert t[9..13] == d[8..12];
    assert t[14..18] == d[12..16];
    assert t[19..23] == d[16..20];
    assert t[24..] == d[20..];
  }

  /** 36 characters: groups of 8, 4, 4, 4 and 12 hexadecimal digits, which together are the id's number. */
  lemma UuidTextShape(id: Uuid)
    ensures var t := UuidText(id);
            && |t| == 36 && t[8] == '-' && t[13] == '-' && t[18] == '-' && t[23] == '-'
            && var digits := t[..8] + t[9..13] + t[14..18] + t[19..23] + t[24..];
               Hex.IsHex(digits) && Hex.Value(digits) == id
  {
    PowersOfSixteen();
    Hex.FixedValue(id, 32);
    DashedSlices(Hex.Fixed(id, 32), UuidText(id));
  }

  /** The script of an id is `apibara-scripts/<id>.js` in the store and `<id>.js` in the temporary directory. */
  lemma KeyShapes(tmp: string, id: Uuid)
    ensures var key := ScriptKey(id); |key| == 55 && key[..16] == "apibara-scripts/" && key[16..52] == UuidText(id)
    ensures ScriptKey(id)[52..] == ".js"
    ensures ScriptTmpPath(tmp, id) == tmp + ("/" + UuidText(id) + ".js")
  {
    UuidTextShape(id);
    var key := ScriptKey(id);
    assert key == "apibara-scripts" + "/" + UuidText(id) + ".js";
    assert key[..16] == "apibara-scripts" + "/";
    assert key[16..52] == UuidText(id);
  }

  lemma UuidTextInjective(a: Uuid, b: Uuid)
    requires UuidText(a) == UuidText(b)
    ensures a == b
  {
    var s, t, d, e := UuidText(a), UuidText(b), Hex.Fixed(a, 32), Hex.Fixed(b, 32);
    forall i | 0 <= i < 32 ensures d[i] == e[i] {
      var dashes := if i < 8 then 0 else if i < 12 then 1 else if i < 16 then 2 else if i < 20 then 3 else 4;
      var at := i + dashes;
      assert s[at] == d[i] && t[at] == e[i];
    }
    assert d == e;
    PowersOfSixteen();
    Hex.FixedValue(a, 32);
    Hex.FixedValue(b, 32);
  }

  /** Two ids never share a script key or a temporary script file. */
  lemma KeysInjective(tmp: string, a: Uuid, b: Uuid)
    ensures ScriptKey(a) == ScriptKey(b) <==> a == b
    ensures ScriptTmpPath(tmp, a) == ScriptTmpPath(tmp, b) <==> a == b
  {
    if ScriptKey(a) == ScriptKey(b) {
      SameMiddle(SCRIPTS_FOLDER + "/", UuidText(a), UuidText(b), ".js");
      UuidTextInjective(a, b);
    }
    if ScriptTmpPath(tmp, a) == ScriptTmpPath(tmp, b) {
      SameMiddle(tmp + "/", UuidText(a), UuidText(b), ".js");
      UuidTextInjective(a, b);
    }
  }

  lemma SameMiddle(front: string, s: string, t: string, back: string)
    requires front + s + back == front + t + back
    ensures s == t
  {
    assert |s| == |t|;
    assert s == (front + s + back)[|front|..|front| + |s|];
    assert t == (front + t + back)[|front|..|front| + |t|];
  }

  // -------------------------------------------------------------------------
  // Statuses and types, with the text the table stores
  // -------------------------------------------------------------------------

  datatype IndexerStatus = Created | Running | Stopped | FailedRunning | FailedStopping

  datatype IndexerType = Webhook | Postgres

  function StatusText(s: IndexerStatus): string {
    match s
    case Created => "Created"
    case Running => "Running"
    case Stopped => "Stopped"
    case FailedRunning => "FailedRunning"
    case FailedStopping => "FailedStopping"
  }

  function ParseStatus(t: string): Option<IndexerStatus> {
    if t == "Created" then Some(Created)
    else if t == "Running" then Some(Running)
    else if t == "Stopped" then Some(Stopped)
    else if t == "FailedRunning" then Some(FailedRunning)
    else if t == "FailedStopping" then Some(FailedStopping)
    else None
  }

  function TypeText(t: IndexerType): string {
    match t
    case Webhook => "Webhook"
    case Postgres => "Postgres"
  }

  function ParseType(t: string): Option<IndexerType> {
    if t == "Webhook" then Some(Webhook) else if t == "Postgres" then Some(Postgres) else None
  }

  /** The stored text and the typed value determine each other. */
  lemma StatusRoundTrip(s: IndexerStatus, t: string)
    ensures ParseStatus(t) == Some(s) <==> t == StatusText(s)
    ensures t == StatusText(s) <==>
            || (s == Created && t == "Created") || (s == Running && t == "Running")
            || (s == Stopped && t == "Stopped") || (s == FailedRunning && t == "FailedRunning")
            || (s == FailedStopping && t == "FailedStopping")
  {
    assert "Created"[0] == 'C' && "Running"[0] == 'R' && "Stopped"[0] == 'S' && "FailedRunning"[6] == 'R';
    assert "FailedStopping"[6] == 'S' && "FailedRunning"[0] == 'F' && "FailedStopping"[0] == 'F';
  }

  lemma TypeRoundTrip(s: IndexerType, t: string)
    ensures ParseType(t) == Some(s) <==> t == TypeText(s)
    ensures t == TypeText(s) <==> (s == Webhook && t == "Webhook") || (s == Postgres && t == "Postgres")
  {
    assert "Webhook"[0] == 'W' && "Postgres"[0] == 'P';
  }

  // -------------------------------------------------------------------------
  // Rows and errors
  // -------------------------------------------------------------------------

  datatype IndexerModel = IndexerModel(
    id: Uuid,
    status: IndexerStatus,
    indexerType: IndexerType,
    processId: Option<int>,
    targetUrl: Option<string>,
    tableName: Option<string>,
    statusServerPort: Option<int>,
    customConnectionString: Option<string>,
    startingBlock: Option<int>,
    indexerId: Option<string>)

  /** Equal in every field but the two that updates may change. */
  predicate SameIdentity(a: IndexerModel, b: IndexerModel) {
    a.(status := b.status, processId := b.processId) == b
  }

  /** The port of the status server when none is given: the request's, the start's and the column's default. */
  const DEFAULT_STATUS_PORT: int := 1234

  datatype InfraError = DbFailure | NotFound | ParseError

  /** What the code expects to be there, and panics without. */
  datatype Expectation = PoolConnection | KindField

  datatype IndexerError =
    | InternalServerError(message: string)
    | InfraError(cause: InfraError)
    | FailedToReadMultipartField
    | UnexpectedMultipartField(name: string)
    | FailedToBuildCreateIndexerRequest
    | FailedToCreateFile
    | FailedToStopIndexer(pid: int)
    | FailedToStartIndexer(id: Uuid)
    | FailedToUploadToStore
    | FailedToGetFromStore
    | InvalidIndexerStatus(status: IndexerStatus)
    | FailedToQueryDb
    | InvalidIndexerType(text: string)
    | StatusServerPortNotFound
    | StatusServerUnavailable
    | Panicked(at: Expectation)
}
