# NL2SQL translation engine — Dafny model

This project models the rule-based natural-language-to-SQL translator of the
nl2sql converter (`src/nl2sql/engine.js`, class `NL2SQLEngine`). The engine is
built around a fixed, ordered table of twenty-three recognizers. Each
recognizer has an ordered list of case-insensitive regular expressions, a SQL
template and a description. The SQL template is either a fixed statement or a
generator over the regular-expression match array.

- `findMatchingTemplate` lower-cases and trims the query. It then tries the
  recognizers in table order, and each recognizer's patterns in their order.
  The first pattern that matches decides the SQL, the description and the
  reported pattern source.
- `translateAndExecute` rejects an unmatched query. The rejection carries a
  fixed message and the fixed `getSuggestions` list. A matched query has its
  SQL run through `executeQuery`.
- `executeQuery` hands the statement to SQLite. It returns the rows, plus a
  column list taken from the first row's keys.

Modules, one per concern:

- `Common`: `Option` and `Result`.
- `Text`: ECMAScript `toLowerCase` and `trim`, and the query normalisation built from them.
- `JsNumber`: the global `parseInt` with no radix, and number-to-string conversion.
- `Rules`: the recognizer, match-array and match-result datatypes, and the
  first-match-wins dispatcher.
- `Templates`: the concrete rule table, with every pattern source and every
  generator.
- `Executor`: SQLite values, rows, the storage collaborator and `executeQuery`.
- `Translator`: the outcome shapes, `getSuggestions` and `translateAndExecute`.

Collaborators are parameters:

- Regular-expression semantics are a `RegexEngine`. It maps a pattern's source
  text and the normalised query to the match array (index 0 is the whole
  match; an unset group is `None`), or to `None` when there is no match.
- The database is a `Connection`. Either no setup object exists, or a setup
  object exists whose `getDatabase()` may return null. Otherwise it holds a
  `Storage` function from SQL text to rows or an error message.
- Every run records the statements it handed to storage (`issued`). This
  makes "no query is run" a checkable statement.

JavaScript details kept in the model:

- Reading `matches[i]` past the end yields undefined.
- `${undefined}` prints as `undefined`.
- `if (matches[2])` is false for an empty capture.
- `parseInt` skips leading whitespace, accepts a sign and switches to base 16
  on a `0x` prefix.
- The interpolated period is the printed number, not the captured text, so
  leading zeros disappear.

## Model

| member | source | states |
|---|---|---|
| Text.Trim | src/nl2sql/engine.js:432 | neither end of the trimmed query is ECMAScript whitespace, and trimming never lengthens it |
| Text.TrimUnique | src/nl2sql/engine.js:432 | trimming a string padded with whitespace on both sides gives back exactly the unpadded string |
| Text.TrimLowerCommute | src/nl2sql/engine.js:432 | lower-casing then trimming, as the source does, equals trimming then lower-casing |
| Text.NormalizeIdempotent | src/nl2sql/engine.js:432 | normalising an already normalised query changes nothing |
| Text.NormalizeKeepsInterior | src/nl2sql/engine.js:432 | normalisation strips only surrounding whitespace: the interior, including its internal whitespace, survives apart from letter case |
| JsNumber.ParseIntOfDecimalDigits | src/nl2sql/engine.js:383 | `parseInt` of a non-empty decimal digit string is its decimal value |
| JsNumber.ParseIntRoundTrip | src/nl2sql/engine.js:383-387 | printing a non-negative integer into the SQL and parsing it back gives the same number |
| Rules.FirstPatternFrom | src/nl2sql/engine.js:435-437 | the inner loop returns the earliest pattern (from the start index on) that matches, with its match array; `None` only when none of them matches |
| Rules.FirstHitFrom | src/nl2sql/engine.js:434-451 | the outer loop returns a hit such that no earlier template has any matching pattern and no earlier pattern of the same template matches; `None` only when no later template has a matching pattern |
| Rules.FindIn | src/nl2sql/engine.js:434-453 | the result is `NotMatched` exactly when no pattern of any template matches; otherwise it is built from the first hit: a static template's SQL verbatim, a generator applied to the full match array, and the owner's description and pattern source |
| Rules.FindMatchingTemplate | src/nl2sql/engine.js:431-454 | as `FindIn`, with every pattern tried against the lower-cased, trimmed query |
| Rules.FindInConcat | src/nl2sql/engine.js:434-451 | table order is priority: the result for a table `a + b` is `a`'s result when `a` matches and `b`'s otherwise, so templates appended later never override an earlier match |
| Rules.HitBoundsWinner | src/nl2sql/engine.js:434-451 | once pattern `pi` of template `ti` matches, the query is matched and the description comes from template `ti` or an earlier one: no later template can override it |
| Rules.EngineSeesOnlyNormalized | src/nl2sql/engine.js:432-436 | the raw query never reaches the regex engine: engines that agree on the normalised query give identical results |
| Rules.NormalizedQueryGivesSameResult | src/nl2sql/engine.js:431-432 | translating the normalised form of a query gives the same match result as the query itself |
| Templates.ProductSummaryMonthFilter | src/nl2sql/engine.js:54-68 | the product sales summary contains the `strftime('%Y-%m', …)` month clause if and only if capture 2 is truthy; the clause sits just before the GROUP BY, and the statement is otherwise identical to the one without a month |
| Templates.RecentHiresDefault | src/nl2sql/engine.js:382-388 | when capture 1 is absent or empty, the recent-hires query is the one an explicit capture "12" produces |
| Templates.RecentHiresDigits | src/nl2sql/engine.js:378-388 | a digit capture is used as the integer it denotes, with leading zeros dropped; the unit word (months or years) is not captured and never reaches the SQL |
| Templates.RecentHiresPeriodsDistinct | src/nl2sql/engine.js:382-388 | different look-back periods yield different recent-hires statements |
| Templates.TableLayout | src/nl2sql/engine.js:10-392 | the table holds twenty-three recognizers; the first three are the product-on-date, product-date-range and product-summary recognizers, whose first pattern is the one at line 50, and category revenue is the seventh |
| Templates.HitInThird | src/nl2sql/engine.js:434-451 | in any table, a query accepted by the first pattern of the third recognizer is matched, and its description is that of one of the first three recognizers |
| Templates.SummaryShadowsCategory | src/nl2sql/engine.js:48-131 | any query accepted by the sales-summary pattern at line 50 is answered by one of the first three recognizers and never by the category-revenue recognizer, even when a category pattern would accept it too |
| Executor.Keys | src/nl2sql/engine.js:470 | `Object.keys` of a row lists its field names in field order, one per field, and a name is listed exactly when reading that property of the row gives a value |
| Executor.ExecuteQuery | src/nl2sql/engine.js:456-479 | no setup or no database: a rejection and no statement issued ("Database not initialized" for the null handle); otherwise exactly the given SQL is issued, the storage error is passed on unchanged, and on success the rows are storage's rows and the columns are the first row's keys (none for zero rows) |
| Executor.ColumnsAreFirstRowKeys | src/nl2sql/engine.js:470 | for a non-empty result, a column is listed if and only if the first row has that property, and no column is listed twice |
| Translator.Suggestions | src/nl2sql/engine.js:481-498 | the suggestion list holds fifteen pairwise distinct example queries |
| Translator.TranslateAndExecute | src/nl2sql/engine.js:395-429 | the outcome is `Rejected` exactly when nothing matched, and then it carries the fixed message and exactly `getSuggestions()` with nothing issued; a matched query issues exactly what `executeQuery` issues for its SQL, and storage never receives anything else; success exactly when execution succeeds, carrying the raw query, the SQL, the description, storage's rows, `rowCount` equal to their number and the first-row columns; a failed execution always becomes `Failed` with the execution error, the query and the attempted SQL |
| Translator.TranslateAsWritten | src/nl2sql/engine.js:421-428 | the source as written: every exception it raises is the ReferenceError "result is not defined" |
| Translator.AsWrittenDiffersOnlyOnFailure | src/nl2sql/engine.js:395-429 | as written and as intended agree on every rejection and success; the written code throws exactly where the intended one reports a failure |
| Translator.MatchedWithoutDatabase | src/nl2sql/engine.js:409-428 | for any table and engine, a matched query with a null database handle issues nothing; the written code throws the ReferenceError, and the intended code fails with "Database not initialized", the raw query and the generated SQL |
| Translator.MissingDatabaseThrows | src/nl2sql/engine.js:421-428 | with the real table, a matching engine and a null database handle, the written code throws a ReferenceError, where the intended code reports "Database not initialized" |
| Translator.RejectionIsUniform | src/nl2sql/engine.js:400-406 | every unmatched query gets the same rejection, whatever the query or the database, with a non-empty suggestion list and no storage access |

## Findings

| source | as written | input that shows it | evidently intended | confidence | as-written member | corrected member |
|---|---|---|---|---|---|---|
| src/nl2sql/engine.js:421-428 | the catch block reads `result?.sql`, but `result` is a `const` scoped to the try block, so the catch block itself raises `ReferenceError: result is not defined` | any matched query while `getDatabase()` returns null, such as "Show me all employees", or any storage error | return `{success: false, error: error.message, naturalLanguageQuery, sql}` | high; not executed | Translator.TranslateAsWritten, Translator.MissingDatabaseThrows | Translator.TranslateAndExecute |

## Left out

- Regular-expression semantics (lazy quantifiers, optional groups, the `i` flag) are a parameter, not a model. Golden per-pattern matches cannot be stated without a regex engine. Precedence is stated conditionally on what the engine accepts (`Templates.SummaryShadowsCategory`).
- The query is typed as a string. `server.js` forwards any truthy `query` field, so a JSON number or object can reach `toLowerCase` at src/nl2sql/engine.js:432 and raise a TypeError inside the `try`. That error path is excluded by the type and not modelled.
- SQLite execution is the `Storage` parameter: a fixed function, which suits the source's read-only, single-shot queries. The asynchronous promise plumbing is collapsed into a direct result.
- The SQL statements keep their words and splice points. Their line breaks and indentation are collapsed to single spaces.
- Captures are spliced into SQL by plain concatenation, as in the source. No safety property is claimed about quoting or injection.
- Text.Normalize: lower-casing covers ASCII letters only. JavaScript's `toLowerCase` also maps other Unicode letters, a few of them to two characters.
- JsNumber.ParseInt: results are exact integers. JavaScript rounds values of 2^53 and above to the nearest double and prints values from 10^21 on in exponent form.
- Executor.ExecuteQuery: the message for a missing setup object is the TypeError text of current V8 engines; older engines word it differently. `server.js` builds the engine without a setup object, which is this case, but the server itself is not part of this model.
- `getSchema` (src/nl2sql/engine.js:502-525) is left out: it is asynchronous metadata queries, and its only pure part is the `notnull`/`pk` flag mapping.
- src/database/setupDatabase.js (table creation and seed data), server.js (HTTP routes and status codes), public/script.js (browser rendering), test-queries.js and recreate-db.js (console drivers) are not part of this model.
