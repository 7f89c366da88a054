/**
 `translateAndExecute`: match the query, then either reject it with the
 fixed suggestion list or run the generated SQL and package the rows.
 */
module Translator {
  import opened Common
  import opened Rules
  import Executor
  import Templates
  import Text

  /** The object `translateAndExecute` resolves to; `success` is `Succeeded?`. */
  datatype Outcome =
    | Succeeded(naturalLanguageQuery: string, sql: string, description: string,
                results: seq<Executor.Row>, rowCount: nat, columns: seq<string>)
    | Rejected(error: string, suggestions: seq<string>)
    | Failed(error: string, naturalLanguageQuery: string, sql: string)

  /** An outcome together with the statements handed to storage on the way. */
  datatype Run = Run(outcome: Outcome, issued: seq<string>)

  /** How a call of the source's `translateAndExecute` settles: resolved, or rejected with an exception. */
  datatype Completion = Returned(run: Run) | Threw(name: string, message: string, issued: seq<string>)

  const NotUnderstood := "I couldn't understand that query. Try asking about employees, sales, products, or departments."

  /** `getSuggestions`: fifteen distinct example queries, the same on every call. */
  function Suggestions(): (r: seq<string>)
    ensures |r| == 15
    ensures forall i, j :: 0 <= i < j < |r| ==> r[i] != r[j]
  {
    [
      "Show me all employees",
      "Who works in engineering?",
      "Show me the highest paid employees",
      "What is the average salary by department?",
      "What are the total sales?",
      "Show me monthly sales",
      "What are the top selling products?",
      "Show me sales by employee",
      "Sales of Furniture products",
      "Revenue from Electronics type",
      "Sales of Laptop Pro 15 on 2023-03-15",
      "Products priced between $50 and $500",
      "Employees with salary above $100000",
      "Sales to Acme Corp",
      "What did TechStart Inc buy?"
    ]
  }

  /**
   The orchestration with the failure path the source intends: a storage or
   configuration error comes back as a `Failed` outcome carrying the error
   message, the query and the SQL that was attempted.
   */
  function TranslateAndExecute(re: RegexEngine, table: seq<Template>, conn: Executor.Connection, query: string): (r: Run)
    ensures var m := FindMatchingTemplate(re, table, query);
      && (m.NotMatched? ==> r == Run(Rejected(NotUnderstood, Suggestions()), []))
      && (r.outcome.Rejected? <==> m.NotMatched?)
      && (r.issued != [] ==> m.Matched? && r.issued == [m.sql])
      && (m.Matched? ==> r.issued == Executor.ExecuteQuery(conn, m.sql).issued)
      && (r.outcome.Succeeded? <==> m.Matched? && Executor.ExecuteQuery(conn, m.sql).result.Success?)
      && (r.outcome.Succeeded? ==>
            && r.outcome.naturalLanguageQuery == query
            && r.outcome.sql == m.sql
            && r.outcome.description == m.description
            && conn.Setup? && conn.database.Some?
            && conn.database.value(m.sql) == Success(r.outcome.results)
            && r.outcome.rowCount == |r.outcome.results|
            && r.outcome.columns == Executor.ColumnsOf(r.outcome.results))
      && (r.outcome.Failed? ==>
            && m.Matched?
            && r.outcome == Failed(Executor.ExecuteQuery(conn, m.sql).result.error, query, m.sql))
      && (m.Matched? && Executor.ExecuteQuery(conn, m.sql).result.Failure? ==>
            r.outcome == Failed(Executor.ExecuteQuery(conn, m.sql).result.error, query, m.sql))
  {
    match FindMatchingTemplate(re, table, query)
    case NotMatched => Run(Rejected(NotUnderstood, Suggestions()), [])
    case Matched(sql, description, _) =>
      var execution := Executor.ExecuteQuery(conn, sql);
      match execution.result
      case Success(q) =>
        Run(Succeeded(query, sql, description, q.rows, |q.rows|, q.columns), execution.issued)
      case Failure(e) =>
        Run(Failed(e, query, sql), execution.issued)
  }

  /**
   The source as written: its catch block reads `result`, a constant scoped to
   the try block, so any failure after matching escapes as a ReferenceError
   instead of becoming a failure object.
   */
  function TranslateAsWritten(re: RegexEngine, table: seq<Template>, conn: Executor.Connection, query: string): (r: Completion)
    ensures r.Threw? ==> r.name == "ReferenceError" && r.message == "result is not defined"
  {
    match FindMatchingTemplate(re, table, query)
    case NotMatched => Returned(Run(Rejected(NotUnderstood, Suggestions()), []))
    case Matched(sql, description, _) =>
      var execution := Executor.ExecuteQuery(conn, sql);
      match execution.result
      case Success(q) =>
        Returned(Run(Succeeded(query, sql, description, q.rows, |q.rows|, q.columns), execution.issued))
      case Failure(_) =>
        Threw("ReferenceError", "result is not defined", execution.issued)
  }

  /**
   The written and the intended orchestration agree on every rejection and
   every success; exactly where the intended one reports a failure, the
   written one throws instead.
   */
  lemma AsWrittenDiffersOnlyOnFailure(re: RegexEngine, table: seq<Template>, conn: Executor.Connection, query: string)
    ensures var fixed := TranslateAndExecute(re, table, conn, query);
      && (!fixed.outcome.Failed? ==> TranslateAsWritten(re, table, conn, query) == Returned(fixed))
      && (fixed.outcome.Failed? <==> TranslateAsWritten(re, table, conn, query).Threw?)
      && (fixed.outcome.Failed? ==> TranslateAsWritten(re, table, conn, query).issued == fixed.issued)
  {
  }

  /** An engine for which every pattern matches, with the whole query as its match. */
  function AcceptEverything(): RegexEngine {
    (pattern: string, input: string) => Some([Some(input)])
  }

  /**
   A matched query with no database behind the setup: the intended code
   reports "Database not initialized" with the query and the generated SQL,
   the written code throws, and neither hands anything to storage.
   */
  lemma MatchedWithoutDatabase(re: RegexEngine, table: seq<Template>, query: string)
    requires FindMatchingTemplate(re, table, query).Matched?
    ensures var conn := Executor.Setup(None);
      && TranslateAsWritten(re, table, conn, query) == Threw("ReferenceError", "result is not defined", [])
      && TranslateAndExecute(re, table, conn, query)
           == Run(Failed(Executor.NotInitialized, query, FindMatchingTemplate(re, table, query).sql), [])
  {
  }

  /**
   The discrepancy on concrete inputs: with the real table, an engine under
   which every query matches and no database behind the setup, the written
   code throws for every query where the intended code reports
   "Database not initialized".
   */
  lemma MissingDatabaseThrows(query: string)
    ensures var conn := Executor.Setup(None);
      && TranslateAsWritten(AcceptEverything(), Templates.Table(), conn, query)
           == Threw("ReferenceError", "result is not defined", [])
      && TranslateAndExecute(AcceptEverything(), Templates.Table(), conn, query).outcome
           == Failed(Executor.NotInitialized, query, FindMatchingTemplate(AcceptEverything(), Templates.Table(), query).sql)
  {
    Templates.TableLayout();
    assert Hits(AcceptEverything(), Templates.Table(), Text.Normalize(query), 0, 0);
    MatchedWithoutDatabase(AcceptEverything(), Templates.Table(), query);
  }

  /**
   A rejection depends on nothing but the failed match: every unmatched query
   gets the same message and the same suggestions, and storage is not touched.
   */
  lemma RejectionIsUniform(re: RegexEngine, table: seq<Template>, c1: Executor.Connection, c2: Executor.Connection, q1: string, q2: string)
    requires FindMatchingTemplate(re, table, q1).NotMatched? && FindMatchingTemplate(re, table, q2).NotMatched?
    ensures TranslateAndExecute(re, table, c1, q1) == TranslateAndExecute(re, table, c2, q2)
    ensures TranslateAndExecute(re, table, c1, q1).issued == []
    ensures |TranslateAndExecute(re, table, c1, q1).outcome.suggestions| > 0
  {
  }
}
