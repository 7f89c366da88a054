/**
 `executeQuery`: hands one SQL statement to the storage collaborator and
 shapes its answer into rows plus a column list taken from the first row.
 */
module Executor {
  import opened Common

  /** A SQLite value as the driver hands it back. */
  datatype Value = Null | Integer(i: int) | Real(r: real) | Text(s: string) | Blob(bytes: seq<bv8>)

  datatype Field = Field(column: string, value: Value)

  /** A result row: its fields in the order `Object.keys` lists them. */
  type Row = seq<Field>

  /** `db.all(sql, [], callback)`: the rows, or the message of the error passed to the callback. */
  type Storage = string -> Result<seq<Row>, string>

  /**
   What `this.dbSetup` holds: nothing at all (the engine built without a
   setup object), or a setup whose `getDatabase()` may still return null.
   */
  datatype Connection = NoSetup | Setup(database: Option<Storage>)

  datatype QueryResult = QueryResult(rows: seq<Row>, columns: seq<string>)

  /** The settled promise of `executeQuery`, with the statements handed to storage. */
  datatype Execution = Execution(result: Result<QueryResult, string>, issued: seq<string>)

  const NotInitialized := "Database not initialized"

  /** The TypeError raised by reading `getDatabase` of an undefined setup. */
  const NoSetupMessage := "Cannot read properties of undefined (reading 'getDatabase')"

  /** `row[column]`: the value of the first field with that name. */
  function Lookup(row: Row, column: string): Option<Value> {
    if |row| == 0 then None
    else if row[0].column == column then Some(row[0].value)
    else Lookup(row[1..], column)
  }

  /**
   `Object.keys(row)`: the field names in field order, and exactly the names
   under which reading the row gives a value.
   */
  function Keys(row: Row): (r: seq<string>)
    ensures |r| == |row|
    ensures forall i :: 0 <= i < |row| ==> r[i] == row[i].column
    ensures forall c :: c in r <==> Lookup(row, c).Some?
    decreases |row|
  {
    if |row| == 0 then [] else [row[0].column] + Keys(row[1..])
  }

  /** The column list of a result: the keys of its first row, none for an empty result. */
  function ColumnsOf(rows: seq<Row>): seq<string> {
    if |rows| > 0 then Keys(rows[0]) else []
  }

  function ExecuteQuery(conn: Connection, sql: string): (r: Execution)
    ensures conn.NoSetup? ==> r == Execution(Failure(NoSetupMessage), [])
    ensures conn == Setup(None) ==> r == Execution(Failure(NotInitialized), [])
    ensures conn.Setup? && conn.database.Some? ==>
      && r.issued == [sql]
      && (r.result.Success? <==> conn.database.value(sql).Success?)
      && (conn.database.value(sql).Failure? ==> r.result.error == conn.database.value(sql).error)
    ensures r.result.Success? ==>
      && conn.Setup? && conn.database.Some?
      && r.result.value.rows == conn.database.value(sql).value
      && (|r.result.value.rows| == 0 ==> r.result.value.columns == [])
      && (|r.result.value.rows| > 0 ==>
            && |r.result.value.columns| == |r.result.value.rows[0]|
            && forall i :: 0 <= i < |r.result.value.columns| ==> r.result.value.columns[i] == r.result.value.rows[0][i].column)
  {
    match conn
    case NoSetup => Execution(Failure(NoSetupMessage), [])
    case Setup(None) => Execution(Failure(NotInitialized), [])
    case Setup(Some(db)) =>
      match db(sql)
      case Failure(e) => Execution(Failure(e), [sql])
      case Success(rows) => Execution(Success(QueryResult(rows, ColumnsOf(rows))), [sql])
  }

  /** The field names of a row are pairwise distinct, as an object's keys are. */
  ghost predicate DistinctColumns(row: Row) {
    forall i, j :: 0 <= i < j < |row| ==> row[i].column != row[j].column
  }

  /**
   The column list names exactly the properties the first row has, each
   once: a column is listed if and only if reading it from the first row
   gives a value.
   */
  lemma ColumnsAreFirstRowKeys(rows: seq<Row>)
    requires |rows| > 0 && DistinctColumns(rows[0])
    ensures forall c :: c in ColumnsOf(rows) <==> Lookup(rows[0], c).Some?
    ensures forall i, j :: 0 <= i < j < |ColumnsOf(rows)| ==> ColumnsOf(rows)[i] != ColumnsOf(rows)[j]
  {
  }
}
