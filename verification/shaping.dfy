/**
 What the query routine returns after a successful submission, decided by the
 query type: a cached result over every fetched row for SELECT, an
 `[insert id, rows]` pair for INSERT, and an affected-row count otherwise.
 */
module Shaping {

  /** The `\DB::SELECT`, `\DB::INSERT`, ... constants the type is compared with. */
  datatype QueryType = Select | Insert | Update | Delete | Other

  /** The `$as_object` argument: `false`/`true`, a class name, or any other value. */
  datatype AsObject = AsBool(flag: bool) | AsClass(name: string) | AsOther

  /** The `fetchAll` mode: associative arrays, or objects of the named class. */
  datatype FetchMode = FetchAssoc | FetchClass(className: string)

  /** One raw result row; its hydration is recorded as a fetch mode, not performed. */
  datatype Row = Row(columns: map<string, string>)

  /** What a `PDOStatement` exposes to the routine. */
  datatype Statement = Statement(rows: seq<Row>, rowCount: int, errorCode: string)

  /** The three return shapes. */
  datatype QueryValue =
    | CachedResult(rows: seq<Row>, sql: string, asObject: AsObject, mode: FetchMode)
    | InsertResult(insertId: int, rowsCreated: int)
    | AffectedRows(count: int)

  /** The SQLSTATE a statement reports when it ran without error. */
  const NoError: string := "00000"

  /** The class rows are hydrated into when no class name is given. */
  const GenericClass: string := "stdClass"

  /** The message logged when an INSERT completes. */
  const InsertLogMessage: string := "insert end"

  /** The fetch mode chosen by `$as_object`: `false` gives associative arrays,
      a string gives that class, anything else gives `stdClass`. */
  function FetchModeFor(asObject: AsObject): (m: FetchMode)
    ensures m == FetchAssoc <==> asObject == AsBool(false)
    ensures asObject.AsClass? ==> m == FetchClass(asObject.name)
    ensures asObject != AsBool(false) && !asObject.AsClass? ==> m == FetchClass(GenericClass)
  {
    match asObject
    case AsBool(flag) => if !flag then FetchAssoc else FetchClass(GenericClass)
    case AsClass(name) => FetchClass(name)
    case AsOther => FetchClass(GenericClass)
  }

  /** The value returned for a statement. The shape is chosen by the query
      type alone; UPDATE and DELETE take the generic branch. */
  function Shape(qtype: QueryType, sql: string, asObject: AsObject, st: Statement): (v: QueryValue)
    ensures v.CachedResult? <==> qtype == Select
    ensures v.InsertResult? <==> qtype == Insert
    ensures v.AffectedRows? <==> qtype != Select && qtype != Insert
    ensures v.CachedResult? ==>
              v.rows == st.rows && v.sql == sql && v.asObject == asObject && v.mode == FetchModeFor(asObject)
    ensures v.InsertResult? ==> v.insertId == -1 && v.rowsCreated == st.rowCount
    ensures v.AffectedRows? && st.errorCode == NoError ==> v.count == st.rowCount
    ensures v.AffectedRows? && st.errorCode != NoError ==> v.count == -1
  {
    if qtype == Select then
      CachedResult(st.rows, sql, asObject, FetchModeFor(asObject))
    else if qtype == Insert then
      InsertResult(-1, st.rowCount)
    else
      AffectedRows(if st.errorCode == NoError then st.rowCount else -1)
  }

  /** Two statements answering queries of the same type are shaped into the
      same variant, whatever their rows, counts and status. */
  lemma ShapeVariantFollowsType(qtype: QueryType, sql1: string, sql2: string, a1: AsObject, a2: AsObject,
                                st1: Statement, st2: Statement)
    ensures Shape(qtype, sql1, a1, st1).CachedResult? == Shape(qtype, sql2, a2, st2).CachedResult?
    ensures Shape(qtype, sql1, a1, st1).InsertResult? == Shape(qtype, sql2, a2, st2).InsertResult?
    ensures Shape(qtype, sql1, a1, st1).AffectedRows? == Shape(qtype, sql2, a2, st2).AffectedRows?
  {
  }

  /** A SELECT keeps every fetched row, in order. */
  lemma SelectKeepsRows(sql: string, asObject: AsObject, st: Statement, i: int)
    requires 0 <= i < |st.rows|
    ensures |Shape(Select, sql, asObject, st).rows| == |st.rows|
    ensures Shape(Select, sql, asObject, st).rows[i] == st.rows[i]
  {
  }
}
