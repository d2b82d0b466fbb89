/** The string-typed `indexers` table, and the typed map of rows it stands for. */
module Repository {
  import opened Wrappers
  import opened Domain

  datatype IndexerDb = IndexerDb(
    id: Uuid,
    status: string,
    type_: string,
    processId: Option<int>,
    targetUrl: Option<string>,
    tableName: Option<string>,
    statusServerPort: Option<int>,
    customConnectionString: Option<string>,
    startingBlock: Option<int>,
    indexerId: Option<string>)

  datatype NewIndexerDb = NewIndexerDb(
    id: Uuid,
    status: string,
    type_: string,
    targetUrl: Option<string>,
    tableName: Option<string>,
    statusServerPort: Option<int>,
    customConnectionString: Option<string>,
    startingBlock: Option<int>,
    indexerId: Option<string>)

  /** The conversion every query result goes through. */
  function TryFrom(db: IndexerDb): Result<IndexerModel, InfraError> {
    var status, kind := ParseStatus(db.status), ParseType(db.type_);
    if status.None? || kind.None? then Failure(ParseError)
    else
      Success(IndexerModel(
                db.id, status.value, kind.value, db.processId, db.targetUrl, db.tableName, db.statusServerPort,
                db.customConnectionString, db.startingBlock, db.indexerId))
  }

  function ToDb(m: IndexerModel): IndexerDb {
    IndexerDb(
      m.id, StatusText(m.status), TypeText(m.indexerType), m.processId, m.targetUrl, m.tableName, m.statusServerPort,
      m.customConnectionString, m.startingBlock, m.indexerId)
  }

  /** Conversion succeeds exactly on the rows some model is stored as, and gives that model back. */
  lemma TryFromInvertsToDb(db: IndexerDb, m: IndexerModel)
    ensures TryFrom(db) == Success(m) <==> db == ToDb(m)
  {
    StatusRoundTrip(m.status, db.status);
    TypeRoundTrip(m.indexerType, db.type_);
  }

  /** A row converts if and only if its texts name a status and a type, and keeps every column under its own name. */
  lemma ConversionKeepsColumns(db: IndexerDb)
    ensures TryFrom(db).Success? <==>
            && db.status in {"Created", "Running", "Stopped", "FailedRunning", "FailedStopping"}
            && db.type_ in {"Webhook", "Postgres"}
    ensures TryFrom(db).Failure? ==> TryFrom(db).error == ParseError
    ensures TryFrom(db).Success? ==>
      var m := TryFrom(db).value;
      && m.id == db.id && db.status == StatusText(m.status) && db.type_ == TypeText(m.indexerType)
      && m.processId == db.processId && m.targetUrl == db.targetUrl && m.tableName == db.tableName
      && m.statusServerPort == db.statusServerPort && m.customConnectionString == db.customConnectionString
      && m.startingBlock == db.startingBlock && m.indexerId == db.indexerId
  {
    if TryFrom(db).Success? {
      TryFromInvertsToDb(db, TryFrom(db).value);
    }
  }

  /** The row an insert leaves; a missing port is sent as DEFAULT. */
  function Inserted(n: NewIndexerDb): IndexerDb {
    IndexerDb(
      n.id, n.status, n.type_, None, n.targetUrl, n.tableName,
      if n.statusServerPort.Some? then n.statusServerPort else Some(DEFAULT_STATUS_PORT),
      n.customConnectionString, n.startingBlock, n.indexerId)
  }

  /** An insert keeps every column under its own name, leaves the pid empty and fills in the default port. */
  lemma InsertKeepsColumns(n: NewIndexerDb)
    ensures var db := Inserted(n);
            && db.id == n.id && db.status == n.status && db.type_ == n.type_ && db.processId == None
            && db.targetUrl == n.targetUrl && db.tableName == n.tableName && db.indexerId == n.indexerId
            && db.customConnectionString == n.customConnectionString && db.startingBlock == n.startingBlock
            && db.statusServerPort == if n.statusServerPort.Some? then n.statusServerPort else Some(1234)
  {
  }

  // -------------------------------------------------------------------------
  // The operations on the stored text
  // -------------------------------------------------------------------------

  type Rows = map<Uuid, IndexerDb>

  datatype Op =
    | Insert(row: NewIndexerDb)
    | Delete(id: Uuid)
    | SetStatus(id: Uuid, status: string)
    | SetStatusAndPid(id: Uuid, status: string, pid: int)

  function Applied(rows: Rows, op: Op): Rows {
    match op
    case Insert(n) => if n.id in rows then rows else rows[n.id := Inserted(n)]
    case Delete(id) => rows - {id}
    case SetStatus(id, status) => if id in rows then rows[id := rows[id].(status := status)] else rows
    case SetStatusAndPid(id, status, pid) =>
      if id in rows then rows[id := rows[id].(status := status, processId := Some(pid))] else rows
  }

  function AllApplied(rows: Rows, ops: seq<Op>): Rows
    decreases |ops|
  {
    if ops == [] then rows else AllApplied(Applied(rows, ops[0]), ops[1..])
  }

  // -------------------------------------------------------------------------
  // Refinement of the typed map
  // -------------------------------------------------------------------------

  /** The id is the primary key. */
  predicate IsKeyed(rows: Rows) {
    forall id | id in rows :: rows[id].id == id
  }

  /** Every row converts. */
  predicate AllConvert(rows: Rows) {
    IsKeyed(rows) && forall id | id in rows :: TryFrom(rows[id]).Success?
  }

  function ModelOf(rows: Rows): map<Uuid, IndexerModel>
    requires AllConvert(rows)
  {
    map id | id in rows :: TryFrom(rows[id]).value
  }

  /** The handlers write statuses and types with `to_string`. */
  predicate IsTyped(op: Op) {
    match op
    case Insert(n) => ParseStatus(n.status).Some? && ParseType(n.type_).Some?
    case Delete(_) => true
    case SetStatus(_, status) => ParseStatus(status).Some?
    case SetStatusAndPid(_, status, _) => ParseStatus(status).Some?
  }

  function ModelApplied(table: map<Uuid, IndexerModel>, op: Op): map<Uuid, IndexerModel>
    requires IsTyped(op)
  {
    match op
    case Insert(n) => if n.id in table then table else table[n.id := TryFrom(Inserted(n)).value]
    case Delete(id) => table - {id}
    case SetStatus(id, status) =>
      if id in table then table[id := table[id].(status := ParseStatus(status).value)] else table
    case SetStatusAndPid(id, status, pid) =>
      if id in table then table[id := table[id].(status := ParseStatus(status).value, processId := Some(pid))]
      else table
  }

  function AllModelApplied(table: map<Uuid, IndexerModel>, ops: seq<Op>): map<Uuid, IndexerModel>
    requires forall i | 0 <= i < |ops| :: IsTyped(ops[i])
    decreases |ops|
  {
    if ops == [] then table else AllModelApplied(ModelApplied(table, ops[0]), ops[1..])
  }

  lemma StepRefines(rows: Rows, op: Op)
    requires AllConvert(rows) && IsTyped(op)
    ensures AllConvert(Applied(rows, op)) && ModelOf(Applied(rows, op)) == ModelApplied(ModelOf(rows), op)
  {
    var after, table := Applied(rows, op), ModelApplied(ModelOf(rows), op);
    assert after.Keys == table.Keys;
    forall id | id in after ensures TryFrom(after[id]) == Success(table[id]) {
    }
  }

  /** Over any sequence of typed operations the text table stays convertible and stands for the typed one. */
  lemma {:induction false} TableRefinesModel(rows: Rows, ops: seq<Op>)
    requires AllConvert(rows) && forall i | 0 <= i < |ops| :: IsTyped(ops[i])
    ensures AllConvert(AllApplied(rows, ops))
    ensures ModelOf(AllApplied(rows, ops)) == AllModelApplied(ModelOf(rows), ops)
    decreases |ops|
  {
    if ops == [] {
    } else {
      StepRefines(rows, ops[0]);
      TableRefinesModel(Applied(rows, ops[0]), ops[1..]);
    }
  }

  // -------------------------------------------------------------------------
  // The repository
  // -------------------------------------------------------------------------

  predicate Matches(db: IndexerDb, filter: Option<string>) {
    filter.None? || db.status == filter.value
  }

  /** Each matching row exactly once, in some order. */
  ghost predicate IsSelection(ms: seq<IndexerModel>, rows: Rows, filter: Option<string>) {
    && (forall i, j | 0 <= i < j < |ms| :: ms[i].id != ms[j].id)
    && (forall i | 0 <= i < |ms| ::
          ms[i].id in rows && Matches(rows[ms[i].id], filter) && TryFrom(rows[ms[i].id]) == Success(ms[i]))
    && (forall id | id in rows && Matches(rows[id], filter) :: exists i | 0 <= i < |ms| :: ms[i].id == id)
  }

  class IndexerRepository {
    var rows: Rows

    ghost predicate Valid()
      reads this
    {
      AllConvert(rows)
    }

    ghost function Model(): map<Uuid, IndexerModel>
      requires Valid()
      reads this
    {
      ModelOf(rows)
    }

    constructor ()
      ensures rows == map[] && Valid()
    {
      rows := map[];
    }

    /** `ok` says whether the connection and the statement work. */
    method InsertRow(n: NewIndexerDb, ok: bool) returns (r: Result<IndexerModel, InfraError>)
      modifies this
      ensures rows == if ok then Applied(old(rows), Insert(n)) else old(rows)
      ensures !ok || n.id in old(rows) ==> r == Failure(DbFailure)
      ensures ok && n.id !in old(rows) ==> r == TryFrom(Inserted(n))
      ensures old(Valid()) && IsTyped(Insert(n)) ==> Valid()
      ensures old(Valid()) && IsTyped(Insert(n)) && ok ==> Model() == ModelApplied(old(Model()), Insert(n))
    {
      if old(Valid()) && IsTyped(Insert(n)) {
        StepRefines(rows, Insert(n));
      }
      if !ok || n.id in rows {
        return Failure(DbFailure);
      }
      rows := rows[n.id := Inserted(n)];
      r := TryFrom(rows[n.id]);
    }

    method Get(id: Uuid, ok: bool) returns (r: Result<IndexerModel, InfraError>)
      ensures !ok ==> r == Failure(DbFailure)
      ensures ok && id !in rows ==> r == Failure(NotFound)
      ensures ok && id in rows ==> r == TryFrom(rows[id])
    {
      if !ok {
        return Failure(DbFailure);
      }
      if id !in rows {
        return Failure(NotFound);
      }
      r := TryFrom(rows[id]);
    }

    /** Some row with that table name; the code asks for no order. */
    method GetByTableName(name: string, ok: bool) returns (r: Result<IndexerModel, InfraError>)
      ensures !ok ==> r == Failure(DbFailure)
      ensures ok && r == Failure(NotFound) ==> forall id | id in rows :: rows[id].tableName != Some(name)
      ensures ok && r != Failure(NotFound) ==>
                exists id :: id in rows && rows[id].tableName == Some(name) && r == TryFrom(rows[id])
    {
      if !ok {
        return Failure(DbFailure);
      }
      var named := set id | id in rows && rows[id].tableName == Some(name);
      if named == {} {
        forall id | id in rows ensures rows[id].tableName != Some(name) {
          assert id !in named;
        }
        return Failure(NotFound);
      }
      var id :| id in named;
      r := TryFrom(rows[id]);
    }

    /** All matching rows, or a parse error as soon as one of them does not convert. */
    method GetAll(filter: Option<string>, ok: bool) returns (r: Result<seq<IndexerModel>, InfraError>)
      requires IsKeyed(rows)
      ensures !ok ==> r == Failure(DbFailure)
      ensures ok && r.Failure? ==> exists id :: id in rows && Matches(rows[id], filter) && TryFrom(rows[id]).Failure?
      ensures r.Success? ==> IsSelection(r.value, rows, filter)
      ensures ok && Valid() ==> r.Success?
      ensures r.Success? ==>
                forall id :: (exists i :: 0 <= i < |r.value| && r.value[i].id == id) <==>
                             id in rows && (filter == None || filter == Some(rows[id].status))
    {
      if !ok {
        return Failure(DbFailure);
      }
      var todo := rows.Keys;
      var found: seq<IndexerModel> := [];
      while todo != {}
        invariant todo <= rows.Keys
        invariant forall i | 0 <= i < |found| :: found[i].id !in todo
        invariant IsSelection(found, rows - todo, filter)
        decreases todo
      {
        var id :| id in todo;
        var db := rows[id];
        if Matches(db, filter) {
          var model := TryFrom(db);
          if model.Failure? {
            return Failure(ParseError);
          }
          ghost var before := found;
          found := found + [model.value];
          SelectionGrows(before, rows, todo, id, filter, model.value);
        } else {
          SelectionKept(found, rows, todo, id, filter);
        }
        todo := todo - {id};
      }
      assert rows - todo == rows;
      return Success(found);
    }

    method Delete(id: Uuid, ok: bool) returns (r: Result<(), InfraError>)
      modifies this
      ensures rows == if ok then Applied(old(rows), Op.Delete(id)) else old(rows)
      ensures r == if ok then Success(()) else Failure(DbFailure)
      ensures old(Valid()) ==> Valid()
      ensures old(Valid()) && ok ==> Model() == old(Model()) - {id}
    {
      if old(Valid()) {
        StepRefines(rows, Op.Delete(id));
      }
      if !ok {
        return Failure(DbFailure);
      }
      rows := rows - {id};
      return Success(());
    }

    /** An update that finds no row reports NotFound. */
    method UpdateStatus(id: Uuid, status: string, ok: bool) returns (r: Result<IndexerModel, InfraError>)
      modifies this
      ensures rows == if ok then Applied(old(rows), SetStatus(id, status)) else old(rows)
      ensures !ok ==> r == Failure(DbFailure)
      ensures ok && id !in old(rows) ==> r == Failure(NotFound)
      ensures ok && id in old(rows) ==> r == TryFrom(rows[id])
      ensures old(Valid()) && ParseStatus(status).Some? ==> Valid()
      ensures old(Valid()) && ParseStatus(status).Some? && ok ==>
                Model() == ModelApplied(old(Model()), SetStatus(id, status))
    {
      if old(Valid()) && ParseStatus(status).Some? {
        StepRefines(rows, SetStatus(id, status));
      }
      if !ok {
        return Failure(DbFailure);
      }
      if id !in rows {
        return Failure(NotFound);
      }
      rows := rows[id := rows[id].(status := status)];
      r := TryFrom(rows[id]);
    }

    method UpdateStatusAndProcessId(id: Uuid, status: string, pid: int, ok: bool)
      returns (r: Result<IndexerModel, InfraError>)
      modifies this
      ensures rows == if ok then Applied(old(rows), SetStatusAndPid(id, status, pid)) else old(rows)
      ensures !ok ==> r == Failure(DbFailure)
      ensures ok && id !in old(rows) ==> r == Failure(NotFound)
      ensures ok && id in old(rows) ==> r == TryFrom(rows[id])
      ensures old(Valid()) && ParseStatus(status).Some? ==> Valid()
      ensures old(Valid()) && ParseStatus(status).Some? && ok ==>
                Model() == ModelApplied(old(Model()), SetStatusAndPid(id, status, pid))
    {
      if old(Valid()) && ParseStatus(status).Some? {
        StepRefines(rows, SetStatusAndPid(id, status, pid));
      }
      if !ok {
        return Failure(DbFailure);
      }
      if id !in rows {
        return Failure(NotFound);
      }
      rows := rows[id := rows[id].(status := status, processId := Some(pid))];
      r := TryFrom(rows[id]);
    }
  }

  lemma SelectionGrows(
      ms: seq<IndexerModel>, rows: Rows, todo: set<Uuid>, id: Uuid, filter: Option<string>, m: IndexerModel)
    requires id in todo && todo <= rows.Keys && (forall i | 0 <= i < |ms| :: ms[i].id !in todo)
    requires IsSelection(ms, rows - todo, filter)
    requires Matches(rows[id], filter) && TryFrom(rows[id]) == Success(m) && m.id == id
    ensures IsSelection(ms + [m], rows - (todo - {id}), filter)
  {
    var all, seen := ms + [m], rows - (todo - {id});
    forall k | k in seen && Matches(seen[k], filter) ensures exists i | 0 <= i < |all| :: all[i].id == k {
      if k == id {
        assert all[|ms|].id == k;
      } else {
        assert k in rows - todo && Matches((rows - todo)[k], filter);
        var i :| 0 <= i < |ms| && ms[i].id == k;
        assert all[i].id == k;
      }
    }
  }

  lemma SelectionKept(ms: seq<IndexerModel>, rows: Rows, todo: set<Uuid>, id: Uuid, filter: Option<string>)
    requires id in todo && todo <= rows.Keys && (forall i | 0 <= i < |ms| :: ms[i].id !in todo)
    requires IsSelection(ms, rows - todo, filter) && !Matches(rows[id], filter)
    ensures IsSelection(ms, rows - (todo - {id}), filter)
  {
    var seen := rows - (todo - {id});
    forall k | k in seen && Matches(seen[k], filter) ensures exists i | 0 <= i < |ms| :: ms[i].id == k {
      assert k in rows - todo && Matches((rows - todo)[k], filter);
    }
  }
}
