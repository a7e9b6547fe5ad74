/** The Oracle client's SQL text and bind parameters (`fetch_documents`,
    `fetch_document_by_id`, `count_documents`, `update_document_status`),
    and the conversion of the rows a cursor yields into records. The
    database is a parameter: `execute` runs a statement with its bind
    parameters and yields the cursor's column names and rows, or the error
    the driver raised. */
module Oracle {
  import opened Wrappers
  import opened Strs
  import opened Values

  /** The `filters` dictionary as its entries in insertion order. A
      dictionary is falsy when empty, so `None` and `{}` are both `[]`. */
  type Filters = seq<(string, Value)>

  /** What a cursor offers after `execute`: the column names of
      `cursor.description` and the rows. */
  datatype Cursor = Cursor(description: seq<string>, rows: seq<seq<Value>>)

  type Execute = (string, Option<Record>) -> Result<Cursor, string>

  /** What indexing `None` (an absent row) raises. */
  const NoRow := "'NoneType' object is not subscriptable"

  /** What indexing an empty row tuple raises. */
  const EmptyRow := "tuple index out of range"

  // ---------------------------------------------------------------------
  // WHERE clause
  // ---------------------------------------------------------------------

  /** `f"{key} = :{key}"`. */
  function Condition(key: string): string {
    key + " = :" + key
  }

  /** The key a condition was written for. */
  function ConditionKey(c: string): string
    requires |c| >= 4
  {
    c[..(|c| - 4) / 2]
  }

  function Conditions(filters: Filters): (r: seq<string>)
    ensures |r| == |filters|
    ensures forall i :: 0 <= i < |filters| ==> r[i] == Condition(filters[i].0)
  {
    seq(|filters|, i requires 0 <= i < |filters| => Condition(filters[i].0))
  }

  function WhereClause(filters: Filters): string {
    if filters == [] then "" else " WHERE " + Join(" AND ", Conditions(filters))
  }

  /** The separator cannot be found inside a condition on a key without
      whitespace, nor across the join that follows it. */
  lemma ConditionSeparable(key: string)
    requires NoSpace(key)
    ensures Find(Condition(key) + " AND ", " AND ", 0) == |Condition(key)|
    ensures Find(Condition(key), " AND ", 0) == -1
  {
    var c := Condition(key);
    var s := c + " AND ";
    var sep := " AND ";
    forall j | 0 <= j < |c|
      ensures !OccursAt(s, sep, j)
    {
      OccursAtChars(s, sep, j);
      if j < |key| {
        assert s[j] == c[j] == key[j];
        assert !IsSpace(key[j]);
      } else if j == |key| || j == |key| + 2 {
        assert s[j + 1] == c[j + 1] == (" = :" + key)[j + 1 - |key|];
        assert s[j + 1] != sep[1];
      } else if j == |key| + 1 || j == |key| + 3 {
        assert s[j] == c[j] == (" = :" + key)[j - |key|];
        assert s[j] != sep[0];
      } else {
        assert s[j] == c[j] == key[j - |key| - 4];
        assert !IsSpace(key[j - |key| - 4]);
      }
    }
    OccursInMiddle(c, sep, "");
    assert c + sep + "" == s;
    FindIsFirst(s, sep, 0);
    FindOccurs(s, sep, 0);
    var f := Find(c, sep, 0);
    if f >= 0 {
      FindOccurs(c, sep, 0);
      assert s[..|c|] == c;
      OccursInPrefix(s, sep, |c|, f);
    }
  }

  /** The WHERE clause is present exactly when there are filters. Read back
      (split at `" AND "` after `" WHERE "`), it lists one condition per
      filter key, in the dictionary's order, each naming its key; this needs
      keys without whitespace, as column names are. */
  lemma WhereClauseReadsBack(filters: Filters)
    ensures WhereClause(filters) == "" <==> filters == []
    ensures filters != [] ==> StartsWith(WhereClause(filters), " WHERE ")
    ensures filters != [] && (forall i :: 0 <= i < |filters| ==> NoSpace(filters[i].0)) ==>
      var read := Split(WhereClause(filters)[7..], " AND ");
      |read| == |filters|
      && forall i :: 0 <= i < |filters| ==> |read[i]| >= 4 && ConditionKey(read[i]) == filters[i].0
  {
    if filters != [] {
      var conds := Conditions(filters);
      ConcatEnds(" WHERE ", Join(" AND ", conds));
      if forall i :: 0 <= i < |filters| ==> NoSpace(filters[i].0) {
        forall i | 0 <= i < |filters|
          ensures Find(conds[i] + " AND ", " AND ", 0) == |conds[i]|
          ensures Find(conds[i], " AND ", 0) == -1
          ensures ConditionKey(conds[i]) == filters[i].0
        {
          ConditionSeparable(filters[i].0);
        }
        assert WhereClause(filters)[7..] == Join(" AND ", conds);
        SplitJoin(" AND ", conds);
      }
    }
  }

  // ---------------------------------------------------------------------
  // Statements
  // ---------------------------------------------------------------------

  /** `if limit:` — `None` and `0` both mean no paging. */
  predicate Paged(limit: Option<int>) {
    limit.Some? && limit.value != 0
  }

  function Paging(limit: Option<int>, offset: int): string {
    if Paged(limit) then
      " OFFSET " + IntToString(offset) + " ROWS FETCH NEXT " + IntToString(limit.value) + " ROWS ONLY"
    else ""
  }

  function FetchSql(table: string, limit: Option<int>, offset: int, filters: Filters): string {
    "SELECT * FROM " + table + WhereClause(filters) + " ORDER BY id" + Paging(limit, offset)
  }

  function CountSql(table: string, filters: Filters): string {
    "SELECT COUNT(*) FROM " + table + WhereClause(filters)
  }

  function ByIdSql(table: string): string {
    "SELECT * FROM " + table + " WHERE id = :id"
  }

  /** The statement's head, before its optional parts. */
  function UpdateHead(table: string): string {
    "UPDATE " + table + " SET status = :status"
  }

  function UpdateSql(table: string, indexedAt: Option<string>): string {
    UpdateHead(table)
    + (if indexedAt.Some? && indexedAt.value != "" then ", indexed_at = :indexed_at" else "")
    + " WHERE id = :id"
  }

  function UpdateParams(docId: Value, status: string, indexedAt: Option<string>): Record {
    var base := map["status" := VStr(status), "id" := docId];
    if indexedAt.Some? && indexedAt.value != "" then base["indexed_at" := VStr(indexedAt.value)] else base
  }

  /** The first `n` pairs of `zip(keys, vals)` as a dictionary, a later
      key overwriting an earlier equal one. */
  function ZipPairs(keys: seq<string>, vals: seq<Value>, n: nat): Record
    requires n <= |keys| && n <= |vals|
  {
    if n == 0 then map[] else ZipPairs(keys, vals, n - 1)[keys[n - 1] := vals[n - 1]]
  }

  /** `dict(zip(keys, vals))`: `zip` stops at the shorter sequence. */
  function ZipDict(keys: seq<string>, vals: seq<Value>): Record {
    ZipPairs(keys, vals, Min(|keys|, |vals|))
  }

  function Keys(filters: Filters): (r: seq<string>)
    ensures |r| == |filters| && forall i :: 0 <= i < |filters| ==> r[i] == filters[i].0
  {
    seq(|filters|, i requires 0 <= i < |filters| => filters[i].0)
  }

  function Vals(filters: Filters): (r: seq<Value>)
    ensures |r| == |filters| && forall i :: 0 <= i < |filters| ==> r[i] == filters[i].1
  {
    seq(|filters|, i requires 0 <= i < |filters| => filters[i].1)
  }

  /** The bind parameters of the filtered statements: the filters
      dictionary itself, or none when it is empty. */
  function FilterParams(filters: Filters): Option<Record> {
    if filters == [] then None else Some(ZipDict(Keys(filters), Vals(filters)))
  }

  /** The query text of `fetch_documents`, grown as the source grows it. */
  method FetchDocumentsQuery(table: string, limit: Option<int>, offset: int, filters: Filters)
    returns (query: string)
    ensures query == FetchSql(table, limit, offset, filters)
  {
    query := "SELECT * FROM " + table;
    if filters != [] {
      var whereClauses := Conditions(filters);
      query := query + (" WHERE " + Join(" AND ", whereClauses));
    } else {
      assert query == query + WhereClause(filters);
    }
    query := query + " ORDER BY id";
    if limit.Some? && limit.value != 0 {
      query := query + (" OFFSET " + IntToString(offset) + " ROWS FETCH NEXT " + IntToString(limit.value) + " ROWS ONLY");
    } else {
      assert query == query + Paging(limit, offset);
    }
  }

  /** The query text of `count_documents`. */
  method CountDocumentsQuery(table: string, filters: Filters) returns (query: string)
    ensures query == CountSql(table, filters)
  {
    query := "SELECT COUNT(*) FROM " + table;
    if filters != [] {
      var whereClauses := Conditions(filters);
      query := query + (" WHERE " + Join(" AND ", whereClauses));
    } else {
      assert query == query + WhereClause(filters);
    }
  }

  /** The statement and bind parameters of `update_document_status`. */
  method UpdateStatusStatement(table: string, docId: Value, status: string, indexedAt: Option<string>)
    returns (query: string, params: Record)
    ensures query == UpdateSql(table, indexedAt)
    ensures params == UpdateParams(docId, status, indexedAt)
  {
    query := "UPDATE " + table + " SET status = :status";
    params := map["status" := VStr(status), "id" := docId];
    if indexedAt.Some? && indexedAt.value != "" {
      query := query + ", indexed_at = :indexed_at";
      params := params["indexed_at" := VStr(indexedAt.value)];
    }
    query := query + " WHERE id = :id";
  }

  /** The fetch query's filter part: after the table comes the WHERE
      clause, then `" ORDER BY id"`. */
  lemma FetchSqlFilterPart(table: string, limit: Option<int>, offset: int, filters: Filters)
    ensures StartsWith(FetchSql(table, limit, offset, filters), "SELECT * FROM " + table)
    ensures StartsWith(FetchSql(table, limit, offset, filters)[|"SELECT * FROM " + table|..],
                       WhereClause(filters) + " ORDER BY id")
  {
    var head := "SELECT * FROM " + table;
    var w := WhereClause(filters);
    var q := FetchSql(table, limit, offset, filters);
    assert q == head + ((w + " ORDER BY id") + Paging(limit, offset));
    ConcatEnds(head, (w + " ORDER BY id") + Paging(limit, offset));
    ConcatEnds(w + " ORDER BY id", Paging(limit, offset));
  }

  /** The fetch query has a WHERE clause right after the table exactly
      when there are filters. */
  lemma FetchSqlWhere(table: string, limit: Option<int>, offset: int, filters: Filters)
    ensures filters != [] <==> StartsWith(FetchSql(table, limit, offset, filters)[|"SELECT * FROM " + table|..], " WHERE ")
  {
    var rest := FetchSql(table, limit, offset, filters)[|"SELECT * FROM " + table|..];
    var w := WhereClause(filters);
    FetchSqlFilterPart(table, limit, offset, filters);
    WhereClauseReadsBack(filters);
    if filters != [] {
      assert rest[..7] == (w + " ORDER BY id")[..7] == w[..7];
    } else {
      assert rest[1] == (w + " ORDER BY id")[1] == 'O';
    }
  }

  /** The paging clause closes the fetch query exactly when `limit` is
      truthy; without it the query ends in `" ORDER BY id"`. */
  lemma FetchSqlPaging(table: string, limit: Option<int>, offset: int, filters: Filters)
    ensures var q := FetchSql(table, limit, offset, filters);
      (Paged(limit) <==> EndsWith(q, " ROWS ONLY"))
      && (!Paged(limit) ==> EndsWith(q, " ORDER BY id"))
  {
    var q := FetchSql(table, limit, offset, filters);
    var base := "SELECT * FROM " + table + WhereClause(filters) + " ORDER BY id";
    var p := Paging(limit, offset);
    assert q == base + p;
    if Paged(limit) {
      var x := " OFFSET " + IntToString(offset) + " ROWS FETCH NEXT " + IntToString(limit.value);
      assert p == x + " ROWS ONLY";
      assert q == (base + x) + " ROWS ONLY";
      ConcatEnds(base + x, " ROWS ONLY");
    } else {
      assert q == base;
      ConcatEnds("SELECT * FROM " + table + WhereClause(filters), " ORDER BY id");
      assert !EndsWith(q, " ROWS ONLY") by {
        assert q[|q| - 1] == 'd';
      }
    }
  }

  /** `count_documents` filters exactly as `fetch_documents` does: after
      the table name, the count query is the fetch query's filter part. */
  lemma CountSharesWhere(table: string, limit: Option<int>, offset: int, filters: Filters)
    ensures CountSql(table, filters)[|"SELECT COUNT(*) FROM " + table|..] + " ORDER BY id" + Paging(limit, offset)
         == FetchSql(table, limit, offset, filters)[|"SELECT * FROM " + table|..]
  {
    var w := WhereClause(filters);
    assert CountSql(table, filters) == ("SELECT COUNT(*) FROM " + table) + w;
    assert FetchSql(table, limit, offset, filters) == ("SELECT * FROM " + table) + (w + " ORDER BY id" + Paging(limit, offset));
  }

  /** The update always sets `status` and ends with `" WHERE id = :id"`;
      the `indexed_at` assignment follows the head, and its bind parameter
      exists, exactly when `indexed_at` is a non-empty string. The
      parameters always bind `status` and `id`, and nothing else. */
  lemma UpdateShape(table: string, docId: Value, status: string, indexedAt: Option<string>)
    ensures var q := UpdateSql(table, indexedAt);
      StartsWith(q, UpdateHead(table)) && EndsWith(q, " WHERE id = :id")
      && ((indexedAt.Some? && indexedAt.value != "")
          <==> StartsWith(q[|UpdateHead(table)|..], ", indexed_at = :indexed_at"))
    ensures var p := UpdateParams(docId, status, indexedAt);
      "status" in p && p["status"] == VStr(status) && "id" in p && p["id"] == docId
      && ("indexed_at" in p <==> indexedAt.Some? && indexedAt.value != "")
      && ("indexed_at" in p ==> p["indexed_at"] == VStr(indexedAt.value))
      && p.Keys <= {"status", "id", "indexed_at"}
  {
    var head := UpdateHead(table);
    var mid := if indexedAt.Some? && indexedAt.value != "" then ", indexed_at = :indexed_at" else "";
    var q := UpdateSql(table, indexedAt);
    assert q == head + (mid + " WHERE id = :id");
    ConcatEnds(head, mid + " WHERE id = :id");
    ConcatEnds(head + mid, " WHERE id = :id");
    assert q[|head|..] == mid + " WHERE id = :id";
    if mid != "" {
      ConcatEnds(mid, " WHERE id = :id");
    } else {
      assert q[|head|..][0] == ' ';
    }
  }

  // ---------------------------------------------------------------------
  // Rows
  // ---------------------------------------------------------------------

  function Min(a: int, b: int): int {
    if a <= b then a else b
  }

  /** The first `n` pairs as a dictionary have a key for each of the first
      `n` names and no other, and each key maps to the value paired with
      its last occurrence. */
  lemma {:induction false} ZipPairsLookup(keys: seq<string>, vals: seq<Value>, n: nat)
    requires n <= |keys| && n <= |vals|
    ensures forall k :: k in ZipPairs(keys, vals, n) <==> exists i :: 0 <= i < n && keys[i] == k
    ensures forall i ::
              0 <= i < n && (forall j :: i < j < n ==> keys[j] != keys[i])
              ==> ZipPairs(keys, vals, n)[keys[i]] == vals[i]
  {
    ZipPairsKeys(keys, vals, n);
    ZipPairsValues(keys, vals, n);
  }

  lemma {:induction false} ZipPairsKeys(keys: seq<string>, vals: seq<Value>, n: nat)
    requires n <= |keys| && n <= |vals|
    ensures forall k :: k in ZipPairs(keys, vals, n) <==> exists i :: 0 <= i < n && keys[i] == k
  {
    if n > 0 {
      ZipPairsKeys(keys, vals, n - 1);
      var before := ZipPairs(keys, vals, n - 1);
      assert ZipPairs(keys, vals, n) == before[keys[n - 1] := vals[n - 1]];
      forall k
        ensures k in ZipPairs(keys, vals, n) <==> exists i :: 0 <= i < n && keys[i] == k
      {
        if k == keys[n - 1] {
          assert 0 <= n - 1 < n && keys[n - 1] == k;
        } else if exists i :: 0 <= i < n && keys[i] == k {
          var i :| 0 <= i < n && keys[i] == k;
          assert i < n - 1;
        }
      }
    }
  }

  lemma {:induction false} ZipPairsValues(keys: seq<string>, vals: seq<Value>, n: nat)
    requires n <= |keys| && n <= |vals|
    ensures forall i :: 0 <= i < n ==> keys[i] in ZipPairs(keys, vals, n)
    ensures forall i ::
              0 <= i < n && (forall j :: i < j < n ==> keys[j] != keys[i])
              ==> ZipPairs(keys, vals, n)[keys[i]] == vals[i]
  {
    if n > 0 {
      ZipPairsValues(keys, vals, n - 1);
      var before := ZipPairs(keys, vals, n - 1);
      assert ZipPairs(keys, vals, n) == before[keys[n - 1] := vals[n - 1]];
    }
  }

  /** `dict(zip(keys, vals))` has a key for each of the first
      `min(|keys|, |vals|)` names and no other, and each key maps to the
      value paired with its last occurrence. */
  lemma ZipDictLookup(keys: seq<string>, vals: seq<Value>)
    ensures forall k ::
              k in ZipDict(keys, vals) <==> exists i :: 0 <= i < Min(|keys|, |vals|) && keys[i] == k
    ensures forall i ::
              0 <= i < Min(|keys|, |vals|) && (forall j :: i < j < Min(|keys|, |vals|) ==> keys[j] != keys[i])
              ==> ZipDict(keys, vals)[keys[i]] == vals[i]
  {
    ZipPairsLookup(keys, vals, Min(|keys|, |vals|));
  }

  /** `[col[0].lower() for col in cursor.description]`. */
  function Columns(description: seq<string>): (r: seq<string>)
    ensures |r| == |description|
    ensures forall i :: 0 <= i < |description| ==> r[i] == Lower(description[i])
  {
    seq(|description|, i requires 0 <= i < |description| => Lower(description[i]))
  }

  /** One row as a document: lowercased column names to the row's values. */
  function RowRecord(description: seq<string>, row: seq<Value>): Record {
    ZipDict(Columns(description), row)
  }

  /** The answer of `fetch_documents`: the filtered, ordered and possibly
      paged query, bound to the filters, and every row of the answer as a
      record, in order. */
  function FetchedDocuments(execute: Execute, table: string, limit: Option<int>, offset: int, filters: Filters)
    : (r: Result<seq<Record>, string>)
    ensures execute(FetchSql(table, limit, offset, filters), FilterParams(filters)).Failure? ==>
      r == Failure(execute(FetchSql(table, limit, offset, filters), FilterParams(filters)).error)
    ensures execute(FetchSql(table, limit, offset, filters), FilterParams(filters)).Success? ==>
      var cursor := execute(FetchSql(table, limit, offset, filters), FilterParams(filters)).value;
      r.Success? && |r.value| == |cursor.rows|
      && forall i :: 0 <= i < |cursor.rows| ==> r.value[i] == RowRecord(cursor.description, cursor.rows[i])
  {
    match execute(FetchSql(table, limit, offset, filters), FilterParams(filters))
    case Failure(e) => Failure(e)
    case Success(cursor) =>
      Success(seq(|cursor.rows|, i requires 0 <= i < |cursor.rows| => RowRecord(cursor.description, cursor.rows[i])))
  }

  /** `fetch_documents`: the row loop turns each row into a record. */
  method FetchDocuments(execute: Execute, table: string, limit: Option<int>, offset: int, filters: Filters)
    returns (r: Result<seq<Record>, string>)
    ensures r == FetchedDocuments(execute, table, limit, offset, filters)
  {
    var query := FetchDocumentsQuery(table, limit, offset, filters);
    var params := if filters != [] then Some(ZipDict(Keys(filters), Vals(filters))) else None;
    var answer := execute(query, params);
    if answer.Failure? {
      return Failure(answer.error);
    }
    var cursor := answer.value;
    var columns := Columns(cursor.description);
    var documents: seq<Record> := [];
    for i := 0 to |cursor.rows|
      invariant |documents| == i
      invariant forall j :: 0 <= j < i ==> documents[j] == RowRecord(cursor.description, cursor.rows[j])
    {
      var doc := ZipDict(columns, cursor.rows[i]);
      documents := documents + [doc];
    }
    assert documents == FetchedDocuments(execute, table, limit, offset, filters).value;
    r := Success(documents);
  }

  /** `update_document_status`: `True` once the statement has run, or the
      error the driver raised. */
  function UpdateDocumentStatus(execute: Execute, table: string, docId: Value, status: string, indexedAt: Option<string>)
    : (r: Result<bool, string>)
    ensures r.Success? <==> execute(UpdateSql(table, indexedAt), Some(UpdateParams(docId, status, indexedAt))).Success?
    ensures r.Success? ==> r.value
  {
    match execute(UpdateSql(table, indexedAt), Some(UpdateParams(docId, status, indexedAt)))
    case Failure(e) => Failure(e)
    case Success(_) => Success(true)
  }

  /** `fetch_document_by_id`: the first row as a record, or `None` when
      there is no row (or the row is empty, hence falsy). */
  function FetchDocumentById(execute: Execute, table: string, docId: Value): (r: Result<Option<Record>, string>)
    ensures execute(ByIdSql(table), Some(map["id" := docId])).Failure? ==> r.Failure?
    ensures execute(ByIdSql(table), Some(map["id" := docId])).Success? ==>
      var cursor := execute(ByIdSql(table), Some(map["id" := docId])).value;
      r.Success?
      && (r.value.None? <==> cursor.rows == [] || cursor.rows[0] == [])
      && (r.value.Some? ==> r.value.value == RowRecord(cursor.description, cursor.rows[0]))
  {
    match execute(ByIdSql(table), Some(map["id" := docId]))
    case Failure(e) => Failure(e)
    case Success(cursor) =>
      if cursor.rows == [] || cursor.rows[0] == [] then Success(None)
      else Success(Some(RowRecord(cursor.description, cursor.rows[0])))
  }

  /** `count_documents`: the first column of the first row; with no row,
      indexing `None` raises, and a row without columns raises its own
      error. */
  function CountDocuments(execute: Execute, table: string, filters: Filters): (r: Result<Value, string>)
    ensures r.Success? <==>
      execute(CountSql(table, filters), FilterParams(filters)).Success?
      && execute(CountSql(table, filters), FilterParams(filters)).value.rows != []
      && execute(CountSql(table, filters), FilterParams(filters)).value.rows[0] != []
    ensures r.Success? ==> r.value == execute(CountSql(table, filters), FilterParams(filters)).value.rows[0][0]
  {
    match execute(CountSql(table, filters), FilterParams(filters))
    case Failure(e) => Failure(e)
    case Success(cursor) =>
      if cursor.rows == [] then Failure(NoRow)
      else if cursor.rows[0] == [] then Failure(EmptyRow)
      else Success(cursor.rows[0][0])
  }
}
