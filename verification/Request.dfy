/** Building a create request from an unbounded multipart field list. */
module Request {
  import opened Wrappers
  import opened Domain
  import Decimal

  type Bytes = seq<bv8>

  datatype CreateIndexerRequest = CreateIndexerRequest(
    indexerType: IndexerType,
    targetUrl: Option<string>,
    tableName: Option<string>,
    customConnectionString: Option<string>,
    startingBlock: Option<int>,
    indexerId: Option<string>,
    data: Bytes,
    statusServerPort: int)
  {
    predicate IsReady() {
      data != [] && match indexerType
                    case Postgres => tableName.Some?
                    case Webhook => targetUrl.Some?
    }
  }

  const DEFAULT_REQUEST :=
    CreateIndexerRequest(Webhook, None, None, None, None, None, [], DEFAULT_STATUS_PORT)

  /** A field's content: the raw bytes, and their decoding as text. */
  datatype Content = Content(bytes: Bytes, text: string)

  /** What reading the next part yields. `Unreadable` is a failing part header. */
  datatype Field = Unreadable | Field(name: Option<string>, content: Option<Content>)

  // -------------------------------------------------------------------------
  // The loop
  // -------------------------------------------------------------------------

  predicate IsKnown(name: string) {
    name in {"script.js", "target_url", "table_name", "indexer_type", "starting_block", "indexer_id"}
  }

  /** The error a field stops the loop with, if any; it does not depend on earlier fields. */
  function Rejection(f: Field): Option<IndexerError> {
    if f.Unreadable? then Some(FailedToReadMultipartField)
    else if f.name.None? then Some(InternalServerError("Failed to get field name"))
    else if !IsKnown(f.name.value) then Some(UnexpectedMultipartField(f.name.value))
    else if f.content.None? then Some(FailedToReadMultipartField)
    else if f.name.value == "indexer_type" && ParseType(f.content.value.text).None? then
      Some(InvalidIndexerType(f.content.value.text))
    else if f.name.value == "starting_block" && Decimal.ParseI64(f.content.value.text).None? then
      Some(InternalServerError("Invalid starting block"))
    else None
  }

  predicate AllAccepted(fields: seq<Field>) {
    forall i | 0 <= i < |fields| :: Rejection(fields[i]).None?
  }

  /** The content of the last field with that name. */
  function Last(fields: seq<Field>, name: string): Option<Content> {
    if fields == [] then None
    else
      var f := fields[|fields| - 1];
      if f.Field? && f.name == Some(name) then f.content else Last(fields[..|fields| - 1], name)
  }

  function TextOf(c: Option<Content>): Option<string> {
    if c.Some? then Some(c.value.text) else None
  }

  /** The record these contents describe. */
  function RecordOf(
      script: Option<Content>, url: Option<Content>, table: Option<Content>,
      kind: Option<Content>, block: Option<Content>, id: Option<Content>): CreateIndexerRequest
  {
    DEFAULT_REQUEST.(
    data := if script.Some? then script.value.bytes else [],
    targetUrl := TextOf(url),
    tableName := TextOf(table),
    indexerType := if kind.Some? && ParseType(kind.value.text).Some? then ParseType(kind.value.text).value else Webhook,
    startingBlock := if block.Some? then Decimal.ParseI64(block.value.text) else None,
    indexerId := TextOf(id))
  }

  /** The record the last field of each name describes. */
  function LastWins(fields: seq<Field>): CreateIndexerRequest {
    RecordOf(
      Last(fields, "script.js"), Last(fields, "target_url"), Last(fields, "table_name"),
      Last(fields, "indexer_type"), Last(fields, "starting_block"), Last(fields, "indexer_id"))
  }

  function WithDefaultId(r: CreateIndexerRequest): CreateIndexerRequest {
    if r.indexerType == Postgres && r.indexerId.None? then r.(indexerId := r.tableName) else r
  }

  function WithPort(r: CreateIndexerRequest, port: Option<int>): CreateIndexerRequest {
    if port.Some? then r.(statusServerPort := port.value) else r
  }

  /** The builder's meaning, without its loop. */
  ghost predicate Builds(fields: seq<Field>, port: Option<int>, result: Result<CreateIndexerRequest, IndexerError>) {
    if AllAccepted(fields) then
      if LastWins(fields).IsReady() then
        result == Success(WithDefaultId(WithPort(LastWins(fields), port)))
      else
        result == Failure(FailedToBuildCreateIndexerRequest)
    else
      exists i: nat :: FirstRejected(fields, i) && result == Failure(Rejection(fields[i]).value)
  }

  predicate FirstRejected(fields: seq<Field>, i: nat) {
    i < |fields| && AllAccepted(fields[..i]) && Rejection(fields[i]).Some?
  }

  lemma LastOneMore(fields: seq<Field>, i: nat, name: string)
    requires i < |fields|
    ensures Last(fields[..i + 1], name) ==
            if fields[i].Field? && fields[i].name == Some(name) then fields[i].content else Last(fields[..i], name)
  {
    var longer := fields[..i + 1];
    assert longer[..|longer| - 1] == fields[..i] && longer[|longer| - 1] == fields[i];
  }

  /** One field's assignment. */
  function Absorb(r: CreateIndexerRequest, f: Field): CreateIndexerRequest
    requires Rejection(f).None?
  {
    var content := f.content.value;
    match f.name.value
    case "script.js" => r.(data := content.bytes)
    case "target_url" => r.(targetUrl := Some(content.text))
    case "table_name" => r.(tableName := Some(content.text))
    case "indexer_type" => r.(indexerType := ParseType(content.text).value)
    case "starting_block" => r.(startingBlock := Decimal.ParseI64(content.text))
    case _ => r.(indexerId := Some(content.text))
  }

  lemma LastWinsOneMore(fields: seq<Field>, i: nat)
    requires i < |fields| && Rejection(fields[i]).None?
    ensures LastWins(fields[..i + 1]) == Absorb(LastWins(fields[..i]), fields[i])
  {
    LastOneMore(fields, i, "script.js");
    LastOneMore(fields, i, "target_url");
    LastOneMore(fields, i, "table_name");
    LastOneMore(fields, i, "indexer_type");
    LastOneMore(fields, i, "starting_block");
    LastOneMore(fields, i, "indexer_id");
  }

  /**
   * The loop folds the parts into a request, stops at the first part it rejects, and then applies
   * the port, the default id and the readiness gate. `port` is the free port found, if any.
   */
  method BuildCreateIndexerRequest(fields: seq<Field>, port: Option<int>)
    returns (result: Result<CreateIndexerRequest, IndexerError>)
    ensures Builds(fields, port, result)
  {
    var request := DEFAULT_REQUEST;
    var i := 0;
    while i < |fields|
      invariant 0 <= i <= |fields|
      invariant AllAccepted(fields[..i])
      invariant request == LastWins(fields[..i])
    {
      var field := fields[i];
      if Rejection(field).Some? {
        assert FirstRejected(fields, i);
        return Failure(Rejection(field).value);
      }
      ghost var before := request;
      var name, content := field.name.value, field.content.value;
      match name {
        case "script.js" => request := request.(data := content.bytes);
        case "target_url" => request := request.(targetUrl := Some(content.text));
        case "table_name" => request := request.(tableName := Some(content.text));
        case "indexer_type" => request := request.(indexerType := ParseType(content.text).value);
        case "starting_block" => request := request.(startingBlock := Some(Decimal.ParseI64(content.text).value));
        case _ => request := request.(indexerId := Some(content.text));
      }
      assert request == Absorb(before, field);
      LastWinsOneMore(fields, i);
      i := i + 1;
    }
    assert fields[..i] == fields;
    if port.Some? {
      request := request.(statusServerPort := port.value);
    }
    if request.indexerType == Postgres && request.indexerId.None? {
      request := request.(indexerId := request.tableName);
    }
    if !request.IsReady() {
      return Failure(FailedToBuildCreateIndexerRequest);
    }
    return Success(request);
  }

  // -------------------------------------------------------------------------
  // What the builder guarantees
  // -------------------------------------------------------------------------

  /** The row invariants the lifecycle protocol relies on. */
  predicate Accepted(r: CreateIndexerRequest) {
    && r.data != []
    && r.customConnectionString.None?
    && (r.startingBlock.Some? ==> Decimal.IsI64(r.startingBlock.value))
    && match r.indexerType
       case Postgres => r.tableName.Some? && r.indexerId.Some?
       case Webhook => r.targetUrl.Some?
  }

  /**
   * A request is built if and only if every field is acceptable and the last-wins record is ready.
   * What is built is accepted, and no field name reaches the connection string.
   */
  lemma BuildsExactly(fields: seq<Field>, port: Option<int>, result: Result<CreateIndexerRequest, IndexerError>)
    requires Builds(fields, port, result)
    ensures result.Success? <==> AllAccepted(fields) && LastWins(fields).IsReady()
    ensures result.Success? ==>
      && Accepted(result.value)
      && result.value.data == LastWins(fields).data
      && result.value.startingBlock == LastWins(fields).startingBlock
      && (result.value.indexerType == Postgres && Last(fields, "indexer_id").None? ==>
            result.value.indexerId == result.value.tableName)
  {
  }

  // -------------------------------------------------------------------------
  // The request, field by field
  // -------------------------------------------------------------------------

  predicate IsNamed(f: Field, name: string) {
    f.Field? && f.name == Some(name)
  }

  predicate Lacks(fields: seq<Field>, name: string) {
    forall i | 0 <= i < |fields| :: !IsNamed(fields[i], name)
  }

  /** Field i is the last one with that name. */
  predicate IsLastNamed(fields: seq<Field>, i: nat, name: string) {
    i < |fields| && IsNamed(fields[i], name) && forall j | i < j < |fields| :: !IsNamed(fields[j], name)
  }

  /** A part with a name the form knows, content that can be read, and a value of its type. */
  predicate IsAcceptable(f: Field) {
    && f.Field? && f.name.Some? && f.content.Some?
    && match f.name.value
       case "script.js" => true
       case "target_url" => true
       case "table_name" => true
       case "indexer_id" => true
       case "indexer_type" => f.content.value.text == "Webhook" || f.content.value.text == "Postgres"
       case "starting_block" => Decimal.ParseI64(f.content.value.text).Some?
       case _ => false
  }

  /** What the loop replies to a part it does not accept. */
  predicate IsReplyTo(f: Field, e: IndexerError) {
    if f.Unreadable? then e == FailedToReadMultipartField
    else if f.name.None? then e == InternalServerError("Failed to get field name")
    else if f.name.value !in {"script.js", "target_url", "table_name", "indexer_id", "indexer_type", "starting_block"}
    then e == UnexpectedMultipartField(f.name.value)
    else if f.content.None? then e == FailedToReadMultipartField
    else if f.name.value == "indexer_type" then e == InvalidIndexerType(f.content.value.text)
    else e == InternalServerError("Invalid starting block")
  }

  lemma AcceptableExactly(f: Field)
    ensures IsAcceptable(f) <==> Rejection(f).None?
    ensures !IsAcceptable(f) ==> IsReplyTo(f, Rejection(f).value)
  {
    if f.Field? && f.content.Some? {
      TypeRoundTrip(Webhook, f.content.value.text);
      TypeRoundTrip(Postgres, f.content.value.text);
      OneOfTwo(ParseType(f.content.value.text));
    }
  }

  lemma OneOfTwo(kind: Option<IndexerType>)
    ensures kind.None? || kind == Some(Webhook) || kind == Some(Postgres)
  {
    assert kind.Some? ==> kind.value.Webhook? || kind.value.Postgres?;
  }

  lemma {:induction false} LastIsLastNamed(fields: seq<Field>, name: string)
    ensures forall i: nat | IsLastNamed(fields, i, name) :: Last(fields, name) == fields[i].content
    ensures Lacks(fields, name) ==> Last(fields, name) == None
  {
    if fields == [] {
    } else {
      var n := |fields| - 1;
      LastIsLastNamed(fields[..n], name);
      forall i: nat | IsLastNamed(fields, i, name) ensures Last(fields, name) == fields[i].content {
        assert i < n ==> !IsNamed(fields[n], name) && IsLastNamed(fields[..n], i, name);
      }
    }
  }

  lemma {:induction false} NamedOrLacks(fields: seq<Field>, name: string)
    ensures Lacks(fields, name) || exists i: nat :: IsLastNamed(fields, i, name)
  {
    if fields == [] {
    } else {
      var n := |fields| - 1;
      if IsNamed(fields[n], name) {
        assert IsLastNamed(fields, n, name);
      } else {
        NamedOrLacks(fields[..n], name);
        if i: nat :| IsLastNamed(fields[..n], i, name) {
          assert IsLastNamed(fields, i, name);
        }
      }
    }
  }

  /** The value of a text member: the text of the last field with its name, if there is one. */
  ghost predicate IsTextOf(value: Option<string>, fields: seq<Field>, name: string) {
    && (Lacks(fields, name) ==> value == None)
    && forall i: nat | IsLastNamed(fields, i, name) ::
         fields[i].content.Some? && value == Some(fields[i].content.value.text)
  }

  lemma TextOfLast(fields: seq<Field>, name: string)
    requires AllAccepted(fields)
    ensures IsTextOf(TextOf(Last(fields, name)), fields, name)
  {
    LastIsLastNamed(fields, name);
    forall i: nat | IsLastNamed(fields, i, name) ensures fields[i].content.Some? {
      assert Rejection(fields[i]).None?;
    }
  }

  /** The members of a request, each from the fields of its own name. */
  ghost predicate Describes(fields: seq<Field>, port: Option<int>, r: CreateIndexerRequest) {
    && IsTextOf(r.targetUrl, fields, "target_url")
    && IsTextOf(r.tableName, fields, "table_name")
    && (r.indexerType == Postgres && Lacks(fields, "indexer_id") ==> r.indexerId == r.tableName)
    && (!(r.indexerType == Postgres && Lacks(fields, "indexer_id")) ==> IsTextOf(r.indexerId, fields, "indexer_id"))
    && (Lacks(fields, "indexer_type") ==> r.indexerType == Webhook)
    && (forall i: nat | IsLastNamed(fields, i, "indexer_type") ::
          fields[i].content.Some? && (r.indexerType == Postgres <==> fields[i].content.value.text == "Postgres"))
    && (Lacks(fields, "starting_block") ==> r.startingBlock == None)
    && (forall i: nat | IsLastNamed(fields, i, "starting_block") ::
          && fields[i].content.Some? && r.startingBlock.Some?
          && r.startingBlock == Decimal.ParseI64(fields[i].content.value.text))
    && (Lacks(fields, "script.js") ==> r.data == [])
    && (forall i: nat | IsLastNamed(fields, i, "script.js") ::
          fields[i].content.Some? && r.data == fields[i].content.value.bytes)
    && r.customConnectionString == None
    && r.statusServerPort == if port.Some? then port.value else 1234
  }

  lemma KindOfLast(fields: seq<Field>, i: nat)
    requires AllAccepted(fields) && IsLastNamed(fields, i, "indexer_type")
    ensures fields[i].content.Some?
    ensures LastWins(fields).indexerType == Postgres <==> fields[i].content.value.text == "Postgres"
  {
    LastIsLastNamed(fields, "indexer_type");
    assert Rejection(fields[i]).None?;
    TypeRoundTrip(Postgres, fields[i].content.value.text);
  }

  lemma BlockOfLast(fields: seq<Field>, i: nat)
    requires AllAccepted(fields) && IsLastNamed(fields, i, "starting_block")
    ensures fields[i].content.Some? && LastWins(fields).startingBlock.Some?
    ensures LastWins(fields).startingBlock == Decimal.ParseI64(fields[i].content.value.text)
  {
    LastIsLastNamed(fields, "starting_block");
    assert Rejection(fields[i]).None?;
  }

  lemma ScriptOfLast(fields: seq<Field>, i: nat)
    requires AllAccepted(fields) && IsLastNamed(fields, i, "script.js")
    ensures fields[i].content.Some? && LastWins(fields).data == fields[i].content.value.bytes
  {
    LastIsLastNamed(fields, "script.js");
    assert Rejection(fields[i]).None?;
  }

  lemma LastWinsDescribes(fields: seq<Field>, port: Option<int>)
    requires AllAccepted(fields)
    ensures Describes(fields, port, WithDefaultId(WithPort(LastWins(fields), port)))
  {
    TextOfLast(fields, "target_url");
    TextOfLast(fields, "table_name");
    TextOfLast(fields, "indexer_id");
    NamedOrLacks(fields, "indexer_id");
    LastIsLastNamed(fields, "indexer_type");
    LastIsLastNamed(fields, "starting_block");
    LastIsLastNamed(fields, "script.js");
    forall i: nat | IsLastNamed(fields, i, "indexer_type") {
      KindOfLast(fields, i);
    }
    forall i: nat | IsLastNamed(fields, i, "starting_block") {
      BlockOfLast(fields, i);
    }
    forall i: nat | IsLastNamed(fields, i, "script.js") {
      ScriptOfLast(fields, i);
    }
  }

  /** The last of the fields with that name says Postgres. */
  ghost predicate SaysPostgres(fields: seq<Field>) {
    exists i: nat :: IsLastNamed(fields, i, "indexer_type") && fields[i].content.Some? &&
                     fields[i].content.value.text == "Postgres"
  }

  ghost predicate HasScriptField(fields: seq<Field>) {
    exists i: nat :: IsLastNamed(fields, i, "script.js") && fields[i].content.Some? &&
                     fields[i].content.value.bytes != []
  }

  /** The form as a whole can be turned into a request. */
  ghost predicate IsComplete(fields: seq<Field>) {
    && (forall i | 0 <= i < |fields| :: IsAcceptable(fields[i]))
    && HasScriptField(fields)
    && !Lacks(fields, if SaysPostgres(fields) then "table_name" else "target_url")
  }

  /** Field i is the first one that cannot be accepted. */
  predicate IsFirstRefused(fields: seq<Field>, i: nat) {
    i < |fields| && !IsAcceptable(fields[i]) && forall j | 0 <= j < i :: IsAcceptable(fields[j])
  }

  lemma ReadyExactly(fields: seq<Field>)
    requires AllAccepted(fields)
    ensures LastWins(fields).IsReady() <==> IsComplete(fields)
  {
    forall i | 0 <= i < |fields| ensures IsAcceptable(fields[i]) {
      AcceptableExactly(fields[i]);
    }
    DataExactly(fields);
    KindExactly(fields);
    TextExactly(fields, "table_name");
    TextExactly(fields, "target_url");
  }

  lemma DataExactly(fields: seq<Field>)
    requires AllAccepted(fields)
    ensures LastWins(fields).data != [] <==> HasScriptField(fields)
  {
    NamedOrLacks(fields, "script.js");
    LastIsLastNamed(fields, "script.js");
    forall i: nat | IsLastNamed(fields, i, "script.js") {
      ScriptOfLast(fields, i);
    }
  }

  lemma KindExactly(fields: seq<Field>)
    requires AllAccepted(fields)
    ensures LastWins(fields).indexerType == Postgres <==> SaysPostgres(fields)
  {
    NamedOrLacks(fields, "indexer_type");
    LastIsLastNamed(fields, "indexer_type");
    forall i: nat | IsLastNamed(fields, i, "indexer_type") {
      KindOfLast(fields, i);
    }
  }

  lemma TextExactly(fields: seq<Field>, name: string)
    requires AllAccepted(fields)
    ensures TextOf(Last(fields, name)).Some? <==> !Lacks(fields, name)
  {
    NamedOrLacks(fields, name);
    TextOfLast(fields, name);
  }

  lemma AcceptedExactly(fields: seq<Field>)
    ensures AllAccepted(fields) <==> forall i | 0 <= i < |fields| :: IsAcceptable(fields[i])
    ensures forall i: nat | FirstRejected(fields, i) ::
              IsFirstRefused(fields, i) && IsReplyTo(fields[i], Rejection(fields[i]).value)
  {
    forall i | 0 <= i < |fields| ensures IsAcceptable(fields[i]) <==> Rejection(fields[i]).None? {
      AcceptableExactly(fields[i]);
    }
    forall i: nat | FirstRejected(fields, i)
      ensures IsFirstRefused(fields, i) && IsReplyTo(fields[i], Rejection(fields[i]).value)
    {
      AcceptableExactly(fields[i]);
      forall j | 0 <= j < i ensures IsAcceptable(fields[j]) {
        assert fields[..i][j] == fields[j];
      }
    }
  }

  /**
   * The builder, field by field: it succeeds if and only if the form is complete, with each member from the
   * last field of its own name; otherwise it replies to the first field that cannot be accepted, or that the
   * form is not complete.
   */
  lemma BuildsFromFields(fields: seq<Field>, port: Option<int>, result: Result<CreateIndexerRequest, IndexerError>)
    requires Builds(fields, port, result)
    ensures result.Success? <==> IsComplete(fields)
    ensures result.Success? ==> Describes(fields, port, result.value)
    ensures result.Failure? ==>
      || (result.error == FailedToBuildCreateIndexerRequest
          && forall i | 0 <= i < |fields| :: IsAcceptable(fields[i]))
      || exists i: nat :: IsFirstRefused(fields, i) && IsReplyTo(fields[i], result.error)
  {
    AcceptedExactly(fields);
    if AllAccepted(fields) {
      ReadyExactly(fields);
      LastWinsDescribes(fields, port);
    }
  }

  /** No two fields carry the same name. */
  predicate DistinctNames(fields: seq<Field>) {
    forall i, j | 0 <= i < j < |fields| :: fields[i].Field? && fields[j].Field? ==> fields[i].name != fields[j].name
  }

  lemma {:induction false} LastOfDistinct(fields: seq<Field>, name: string, i: nat)
    requires i < |fields| && DistinctNames(fields)
    requires fields[i].Field? && fields[i].name == Some(name)
    ensures Last(fields, name) == fields[i].content
  {
    var front := fields[..|fields| - 1];
    if i == |fields| - 1 {
    } else {
      assert front[i] == fields[i];
      LastOfDistinct(front, name, i);
    }
  }

  lemma {:induction false} LastOfMissing(fields: seq<Field>, name: string)
    requires forall i | 0 <= i < |fields| :: !(fields[i].Field? && fields[i].name == Some(name))
    ensures Last(fields, name) == None
  {
    if fields == [] {
    } else {
      LastOfMissing(fields[..|fields| - 1], name);
    }
  }

  lemma SameLast(a: seq<Field>, b: seq<Field>, name: string)
    requires DistinctNames(a) && DistinctNames(b) && multiset(a) == multiset(b)
    ensures Last(a, name) == Last(b, name)
  {
    if i :| 0 <= i < |a| && a[i].Field? && a[i].name == Some(name) {
      LastOfDistinct(a, name, i);
      assert a[i] in multiset(b);
      var j :| 0 <= j < |b| && b[j] == a[i];
      LastOfDistinct(b, name, j);
    } else {
      forall j | 0 <= j < |b| ensures !(b[j].Field? && b[j].name == Some(name)) {
        assert b[j] in multiset(a);
      }
      LastOfMissing(a, name);
      LastOfMissing(b, name);
    }
  }

  /** With pairwise distinct names, reordering the fields changes neither success nor the request. */
  lemma OrderDoesNotMatter(
      a: seq<Field>, b: seq<Field>, port: Option<int>,
      ra: Result<CreateIndexerRequest, IndexerError>, rb: Result<CreateIndexerRequest, IndexerError>)
    requires DistinctNames(a) && DistinctNames(b) && multiset(a) == multiset(b)
    requires Builds(a, port, ra) && Builds(b, port, rb)
    ensures ra.Success? <==> rb.Success?
    ensures ra.Success? ==> ra == rb
  {
    SameAcceptance(a, b);
    SameLast(a, b, "script.js");
    SameLast(a, b, "target_url");
    SameLast(a, b, "table_name");
    SameLast(a, b, "indexer_type");
    SameLast(a, b, "starting_block");
    SameLast(a, b, "indexer_id");
    assert LastWins(a) == LastWins(b);
  }

  lemma SameAcceptance(a: seq<Field>, b: seq<Field>)
    requires multiset(a) == multiset(b)
    ensures AllAccepted(a) <==> AllAccepted(b)
  {
    forall j | 0 <= j < |b| ensures b[j] in a {
      assert b[j] in multiset(b);
    }
    forall j | 0 <= j < |a| ensures a[j] in b {
      assert a[j] in multiset(a);
    }
  }
}
