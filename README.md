# Oracle query analysis listeners, modelled in Dafny

This project models the core of an Oracle EXPLAIN PLAN analyzer for Spring
applications. Two datasource-proxy listeners sit in front of the
application's JDBC traffic. Before each batch of statements runs, they pick
out every SELECT, INSERT, UPDATE and DELETE and have Oracle explain it into
`PLAN_TABLE` under a fresh statement id. They then read the plan back and
delete it again. The result is printed on the console and/or written to the
log as a report.

- **The analysis listener** (`OracleQueryInterceptor`) acts only when
  enabled and in `development` mode. It uses `ExplainPlanAnalyzer` to build
  a full plan: each step is read first from the `DBMS_XPLAN.DISPLAY` text,
  falling back to `PLAN_TABLE` itself, and the total cost is the largest
  positive step cost. `QueryFormatter` renders the plan as a report with a
  step table and recommendations.
- **The debug listener** (`OracleQueryDebugInterceptor`) acts whenever it
  is enabled. It uses `OracleQueryAnalyzer` to summarise the root (id 0)
  row of the plan. `QueryDebugFormatter` renders the summary as a report
  with byte units and a performance assessment.

Both listeners load their collaborators lazily from the Spring context.
Each swallows and logs every exception that a statement's analysis throws.

## How the model is built

- **The database.** `PlanTables.PlanTable` is a class whose `rows` map
  holds `PLAN_TABLE` by statement id.
  - The optimizer (`optimizer`: the rows EXPLAIN PLAN writes for a query)
    and `DBMS_XPLAN.DISPLAY` (`display`: the text lines it renders for the
    rows) are parameters of the table.
  - `failing` names the database operations that raise a `SQLException`.
  - Every statement the source sends is a method of the table: EXPLAIN
    PLAN, DISPLAY, the plan and parent queries, and DELETE.
- **The model classes.** `QueryExecutionPlan`, `ExecutionStep` and
  `QueryExecutionSummary` are classes. Their setters update one field and
  are specified against value views (`Plan`, `Step`, `Summary`).
- **Null.** A Java `null` is `None`; exceptions are the `Fault` datatype.
- **Imperative code.** Each Java method that builds a list or a string
  step by step is a Dafny method with a loop. The method is proved equal
  to a function, and the function is the subject of the lemmas:
  - the step lists of `ExplainPlanAnalyzer`;
  - the `StringBuilder`s of both formatters and of `getCurrentStackTrace`;
  - the statement loop of both listeners.
- **Formatter output.** Each formatter's output is described twice: once
  as a list of parts (sections, advice, assessment notes) that the lemmas
  reason about, and once as their concatenated text.
- **The listeners.** Both are classes. `BeforeQuery` is proved equal to a
  fold (`Listeners.Batch`) of a per-statement function (`Handled`) over
  the batch. The world the fold threads through is `PLAN_TABLE`, the
  console lines and the log entries.
- **Outside inputs.** Clocks, the UUID, the thread id and the call stack
  are parameters (`Env`).
- **Java arithmetic and strings.** The model writes these out explicitly:
  - `long`/`int` range checks and the saturating `(long)` cast of a
    double;
  - `String.trim` (characters up to U+0020), ASCII `toUpperCase`;
  - `split` with trailing empty strings removed;
  - `Integer.parseInt`/`Long.parseLong`, `Double.parseDouble` for decimal
    text;
  - `%.Nf` with HALF_UP rounding and `%,d` grouping.

Four behaviours of the code are worth stating outright, because a reader
of the source could easily expect otherwise:

- **The rows field.** `parsePlanLine` reads the cardinality from the fifth
  `|`-separated field
  (`src/main/java/bca/oraclelog/queryanalyzer/service/ExplainPlanAnalyzer.java:138,159-166`).
  For the line `| 1 | TABLE ACCESS FULL| EMPLOYEES | 500 | | 120 (2%)|`
  that field holds `500`, so the step gets cardinality 500
  (`PlanLines.ParseRenderedLine`).
- **Cost 1000.** The assessment tests `cost > 1000`
  (`src/main/java/bca/oraclelog/queryanalyzer/service/QueryDebugFormatter.java:82-86`),
  so a total cost of exactly 1000 is assessed LOW, not MODERATE
  (`QueryDebugFormatter.AssessmentPromise`).
- **SQL reflow.** The line breaks inserted before clause keywords are
  turned back into spaces by the `\s+` collapse that follows
  (`src/main/java/bca/oraclelog/queryanalyzer/service/QueryFormatter.java:55-58`,
  `src/main/java/bca/oraclelog/queryanalyzer/service/QueryDebugFormatter.java:56-59`),
  so the shown query is a single line (`SqlReflow.FormatQueryShape`).
- **`includeQueryText`.** Setting it false has no effect: `analyzeQuery`
  stores the query text unconditionally
  (`src/main/java/bca/oraclelog/queryanalyzer/service/OracleQueryAnalyzer.java:16`,
  `DebugInterceptor.IncludeQueryTextHasNoEffect`).

## Model

| member | source | states |
|---|---|---|
| DateTimes.ZeroPadWidth | src/main/java/bca/oraclelog/queryanalyzer/service/QueryFormatter.java:21 | a field below 10^width is printed zero-padded to exactly `width` digits |
| DateTimes.FormatWidths | src/main/java/bca/oraclelog/queryanalyzer/service/QueryDebugFormatter.java:12 | a valid timestamp prints as 19 characters under `yyyy-MM-dd HH:mm:ss` and 23 under `yyyy-MM-dd HH:mm:ss.SSS` |
| ExecutionPlan.ExecutionStep.constructor | src/main/java/bca/oraclelog/queryanalyzer/model/QueryExecutionPlan.java:32-39 | a new step has id 0, null operation, name and predicates, and zero cost and cardinality |
| ExecutionPlan.ExecutionStep.SetId | src/main/java/bca/oraclelog/queryanalyzer/model/QueryExecutionPlan.java:43 | only the id changes, to the value given |
| ExecutionPlan.ExecutionStep.SetOperation | src/main/java/bca/oraclelog/queryanalyzer/model/QueryExecutionPlan.java:46 | only the operation changes |
| ExecutionPlan.ExecutionStep.SetObjectName | src/main/java/bca/oraclelog/queryanalyzer/model/QueryExecutionPlan.java:49 | only the object name changes |
| ExecutionPlan.ExecutionStep.SetCost | src/main/java/bca/oraclelog/queryanalyzer/model/QueryExecutionPlan.java:52 | only the cost changes |
| ExecutionPlan.ExecutionStep.SetCardinality | src/main/java/bca/oraclelog/queryanalyzer/model/QueryExecutionPlan.java:55 | only the cardinality changes |
| ExecutionPlan.ExecutionStep.SetAccessPredicates | src/main/java/bca/oraclelog/queryanalyzer/model/QueryExecutionPlan.java:58 | only the access predicates change |
| ExecutionPlan.ExecutionStep.SetFilterPredicates | src/main/java/bca/oraclelog/queryanalyzer/model/QueryExecutionPlan.java:61 | only the filter predicates change |
| ExecutionPlan.QueryExecutionPlan.constructor | src/main/java/bca/oraclelog/queryanalyzer/model/QueryExecutionPlan.java:12-14 | a new plan holds the query, null steps and stack trace, and zero cost and time |
| ExecutionPlan.QueryExecutionPlan.SetOriginalQuery | src/main/java/bca/oraclelog/queryanalyzer/model/QueryExecutionPlan.java:18 | only the query changes |
| ExecutionPlan.QueryExecutionPlan.SetSteps | src/main/java/bca/oraclelog/queryanalyzer/model/QueryExecutionPlan.java:21 | only the step list changes |
| ExecutionPlan.QueryExecutionPlan.SetTotalCost | src/main/java/bca/oraclelog/queryanalyzer/model/QueryExecutionPlan.java:24 | only the total cost changes |
| ExecutionPlan.QueryExecutionPlan.SetExecutionTime | src/main/java/bca/oraclelog/queryanalyzer/model/QueryExecutionPlan.java:27 | only the execution time changes |
| ExecutionPlan.QueryExecutionPlan.SetStackTrace | src/main/java/bca/oraclelog/queryanalyzer/model/QueryExecutionPlan.java:30 | only the stack trace changes |
| ExecutionSummary.QueryExecutionSummary.constructor | src/main/java/bca/oraclelog/queryanalyzer/model/QueryExecutionSummary.java:19-22 | a new summary carries the drawn UUID and the current time, with every other field null or zero |
| ExecutionSummary.QueryExecutionSummary.SetStatementId | src/main/java/bca/oraclelog/queryanalyzer/model/QueryExecutionSummary.java:26 | only the statement id changes |
| ExecutionSummary.QueryExecutionSummary.SetOriginalQuery | src/main/java/bca/oraclelog/queryanalyzer/model/QueryExecutionSummary.java:29 | only the query changes |
| ExecutionSummary.QueryExecutionSummary.SetCost | src/main/java/bca/oraclelog/queryanalyzer/model/QueryExecutionSummary.java:32 | only the cost changes |
| ExecutionSummary.QueryExecutionSummary.SetCardinality | src/main/java/bca/oraclelog/queryanalyzer/model/QueryExecutionSummary.java:35 | only the cardinality changes |
| ExecutionSummary.QueryExecutionSummary.SetBytes | src/main/java/bca/oraclelog/queryanalyzer/model/QueryExecutionSummary.java:38 | only the byte count changes |
| ExecutionSummary.QueryExecutionSummary.SetCpuCost | src/main/java/bca/oraclelog/queryanalyzer/model/QueryExecutionSummary.java:41 | only the CPU cost changes |
| ExecutionSummary.QueryExecutionSummary.SetIoCost | src/main/java/bca/oraclelog/queryanalyzer/model/QueryExecutionSummary.java:44 | only the I/O cost changes |
| ExecutionSummary.QueryExecutionSummary.SetTime | src/main/java/bca/oraclelog/queryanalyzer/model/QueryExecutionSummary.java:47 | only the estimated time changes |
| ExecutionSummary.QueryExecutionSummary.SetAnalysisTimeMs | src/main/java/bca/oraclelog/queryanalyzer/model/QueryExecutionSummary.java:50 | only the analysis time changes |
| ExecutionSummary.QueryExecutionSummary.SetTimestamp | src/main/java/bca/oraclelog/queryanalyzer/model/QueryExecutionSummary.java:53 | only the timestamp changes |
| ExecutionSummary.QueryExecutionSummary.SetStackTrace | src/main/java/bca/oraclelog/queryanalyzer/model/QueryExecutionSummary.java:56 | only the stack trace changes |
| PlanTables.InsertById | src/main/java/bca/oraclelog/queryanalyzer/service/ExplainPlanAnalyzer.java:98 | inserting a row into an id-ordered list keeps it ordered, adds exactly that row, and puts it first or keeps the old head |
| PlanTables.SortById | src/main/java/bca/oraclelog/queryanalyzer/service/ExplainPlanAnalyzer.java:93-99 | `ORDER BY ID` returns a permutation of the statement's rows, ordered by id |
| PlanTables.InsertLast | src/main/java/bca/oraclelog/queryanalyzer/service/ExplainPlanAnalyzer.java:98 | a row with the largest id goes at the end |
| PlanTables.SortOfSorted | src/main/java/bca/oraclelog/queryanalyzer/service/ExplainPlanAnalyzer.java:98 | rows already in id order come back unchanged |
| PlanTables.FirstWithId | src/main/java/bca/oraclelog/queryanalyzer/service/OracleQueryAnalyzer.java:42-52 | `ID = 0` with `rs.next()` yields a row of the statement with that id, or none exists |
| PlanTables.PlanTable.constructor | src/main/java/bca/oraclelog/queryanalyzer/service/ExplainPlanAnalyzer.java:26-29 | the table starts with the given rows, optimizer, display and failing operations |
| PlanTables.PlanTable.Explain | src/main/java/bca/oraclelog/queryanalyzer/service/ExplainPlanAnalyzer.java:26-30 | EXPLAIN PLAN either raises a SQLException and changes nothing, or appends the optimizer's rows under the statement id and touches no other id |
| PlanTables.PlanTable.Display | src/main/java/bca/oraclelog/queryanalyzer/service/ExplainPlanAnalyzer.java:57-62 | `DBMS_XPLAN.DISPLAY` raises, or returns the display's lines for the statement's rows |
| PlanTables.PlanTable.ReadPlan | src/main/java/bca/oraclelog/queryanalyzer/service/ExplainPlanAnalyzer.java:93-104 | the `PLAN_TABLE` query raises, or returns the statement's rows sorted by id (a permutation of them) |
| PlanTables.PlanTable.ReadParent | src/main/java/bca/oraclelog/queryanalyzer/service/OracleQueryAnalyzer.java:42-52 | the parent query raises, or returns the statement's first id-0 row if any |
| PlanTables.PlanTable.Delete | src/main/java/bca/oraclelog/queryanalyzer/service/ExplainPlanAnalyzer.java:206-209 | DELETE raises and changes nothing, or removes exactly the statement's rows |
| ExplainPlanAnalyzer.NoUnderscoreInIntText | src/main/java/bca/oraclelog/queryanalyzer/service/ExplainPlanAnalyzer.java:22 | a printed number holds no `_`, the separator of the statement id |
| ExplainPlanAnalyzer.SplitAtMarker | src/main/java/bca/oraclelog/queryanalyzer/service/ExplainPlanAnalyzer.java:22 | two texts joined by a marker absent from their first parts split back uniquely |
| ExplainPlanAnalyzer.FirstMarker | src/main/java/bca/oraclelog/queryanalyzer/service/ExplainPlanAnalyzer.java:22 | the first occurrence of the marker is the one after the marker-free prefix |
| ExplainPlanAnalyzer.StatementIdInjective | src/main/java/bca/oraclelog/queryanalyzer/service/ExplainPlanAnalyzer.java:22 | `STMT_<millis>_<thread>` determines both the clock reading and the thread id |
| ExplainPlanAnalyzer.IntTextInjective | src/main/java/bca/oraclelog/queryanalyzer/service/ExplainPlanAnalyzer.java:22 | distinct longs print differently |
| ExplainPlanAnalyzer.StepOfRowOperation | src/main/java/bca/oraclelog/queryanalyzer/service/ExplainPlanAnalyzer.java:109-114 | the step's operation is null exactly when OPERATION is null and OBJECT_NAME null or blank, and is OPERATION unchanged whenever the name is null or blank |
| ExplainPlanAnalyzer.StepOfRowNamed | src/main/java/bca/oraclelog/queryanalyzer/service/ExplainPlanAnalyzer.java:111-113 | with a non-blank OBJECT_NAME the operation is OPERATION (`null` printed for null), a space and the name |
| ExplainPlanAnalyzer.StepsOfRows | src/main/java/bca/oraclelog/queryanalyzer/service/ExplainPlanAnalyzer.java:105-128 | one step per `PLAN_TABLE` row, in row order, each the row's conversion |
| ExplainPlanAnalyzer.PlanTableStepsOrdered | src/main/java/bca/oraclelog/queryanalyzer/service/ExplainPlanAnalyzer.java:90-133 | the fallback returns one step per row of the statement, with ids ascending |
| ExplainPlanAnalyzer.PlanTableStepsOfSorted | src/main/java/bca/oraclelog/queryanalyzer/service/ExplainPlanAnalyzer.java:90-133 | rows already in id order are converted in their own order |
| ExplainPlanAnalyzer.RowToStep | src/main/java/bca/oraclelog/queryanalyzer/service/ExplainPlanAnalyzer.java:106-125 | a fresh step whose fields are the row's, with null COST and CARDINALITY read as 0 and longs cast |
| ExplainPlanAnalyzer.RetrieveFromPlanTable | src/main/java/bca/oraclelog/queryanalyzer/service/ExplainPlanAnalyzer.java:90-133 | the fallback raises the query's SQLException, or returns the statement's rows in id order as steps |
| ExplainPlanAnalyzer.CopyRows | src/main/java/bca/oraclelog/queryanalyzer/service/ExplainPlanAnalyzer.java:105-128 | the loop's list equals the row-by-row conversion |
| ExplainPlanAnalyzer.LineSteps | src/main/java/bca/oraclelog/queryanalyzer/service/ExplainPlanAnalyzer.java:67-77 | a DISPLAY line contributes at most one step, only when it is non-null, contains `\|` and neither `---` nor `Id`, and `parsePlanLine` accepts it |
| ExplainPlanAnalyzer.XPlanSteps | src/main/java/bca/oraclelog/queryanalyzer/service/ExplainPlanAnalyzer.java:66-78 | the steps read from DISPLAY are never more than its lines |
| ExplainPlanAnalyzer.XPlanStepsAppend | src/main/java/bca/oraclelog/queryanalyzer/service/ExplainPlanAnalyzer.java:66-78 | reading two runs of lines gives the steps of the first run followed by those of the second |
| ExplainPlanAnalyzer.XPlanStepsLast | src/main/java/bca/oraclelog/queryanalyzer/service/ExplainPlanAnalyzer.java:66-78 | one more line adds exactly its own steps at the end |
| ExplainPlanAnalyzer.XPlanStepsSnoc | src/main/java/bca/oraclelog/queryanalyzer/service/ExplainPlanAnalyzer.java:66-78 | the loop's list after line i is the list before it plus line i's steps |
| ExplainPlanAnalyzer.LineStepsOfRow | src/main/java/bca/oraclelog/queryanalyzer/service/ExplainPlanAnalyzer.java:71-76 | a plan-row line adds the step `parsePlanLine` returns, or nothing when it returns null |
| ExplainPlanAnalyzer.LineStepsOfOther | src/main/java/bca/oraclelog/queryanalyzer/service/ExplainPlanAnalyzer.java:68-71 | a null line or one that is not a plan row adds nothing |
| ExplainPlanAnalyzer.HeadingAddsNoStep | src/main/java/bca/oraclelog/queryanalyzer/service/ExplainPlanAnalyzer.java:71 | headings, rules and lines without `\|` never become steps |
| ExplainPlanAnalyzer.RenderedLineStep | src/main/java/bca/oraclelog/queryanalyzer/service/ExplainPlanAnalyzer.java:71-76 | a DISPLAY row rendered from an id, operation, name, rows, bytes, cost and CPU text reads back as exactly that step |
| ExplainPlanAnalyzer.RetrievedStepsEmpty | src/main/java/bca/oraclelog/queryanalyzer/service/ExplainPlanAnalyzer.java:80-87 | the retrieved list is empty only when DISPLAY yields no step and the table holds no row; any DISPLAY step makes the result those steps, with no fallback |
| ExplainPlanAnalyzer.RetrieveFromXPlan | src/main/java/bca/oraclelog/queryanalyzer/service/ExplainPlanAnalyzer.java:53-88 | the method returns the DISPLAY steps, or when there are none the `PLAN_TABLE` fallback, or the SQLException of the query that failed |
| ExplainPlanAnalyzer.MaxPositiveCost | src/main/java/bca/oraclelog/queryanalyzer/service/ExplainPlanAnalyzer.java:37-41 | the total cost is non-negative, at least every positive step cost, and when positive it is one of them |
| ExplainPlanAnalyzer.TableAfter | src/main/java/bca/oraclelog/queryanalyzer/service/ExplainPlanAnalyzer.java:44-48 | after an analysis no other statement's rows change, and unless DELETE fails the statement's rows are gone |
| ExplainPlanAnalyzer.TableAfterRows | src/main/java/bca/oraclelog/queryanalyzer/service/ExplainPlanAnalyzer.java:206-214 | the statement's rows are empty after cleanup, or when DELETE fails they are what EXPLAIN left; other ids keep theirs |
| ExplainPlanAnalyzer.ExplainAndRetrieve | src/main/java/bca/oraclelog/queryanalyzer/service/ExplainPlanAnalyzer.java:24-34 | the try block's outcome is the analysis of the statement's rows plus the optimizer's, and only EXPLAIN changes the table |
| ExplainPlanAnalyzer.ExplainInto | src/main/java/bca/oraclelog/queryanalyzer/service/ExplainPlanAnalyzer.java:24-42 | the try block throws the analysis's exception and leaves the plan alone, or stores the steps and their largest positive cost in it; only EXPLAIN changes the table |
| ExplainPlanAnalyzer.CleanupPlanTable | src/main/java/bca/oraclelog/queryanalyzer/service/ExplainPlanAnalyzer.java:206-214 | cleanup removes exactly the statement's rows, or on a SQLException leaves the table and throws nothing |
| ExplainPlanAnalyzer.AnalyzeQuery | src/main/java/bca/oraclelog/queryanalyzer/service/ExplainPlanAnalyzer.java:16-51 | the statement id is `STMT_<t1>_<thread>`; the method throws the analysis's exception or returns a plan with the query, the steps, their largest positive cost and the elapsed time; the table is cleaned up either way |
| OracleQueryAnalyzer.WithParentKeepsIdentity | src/main/java/bca/oraclelog/queryanalyzer/service/OracleQueryAnalyzer.java:41-74 | reading the parent row never changes the id, query, analysis time, timestamp or stack trace |
| OracleQueryAnalyzer.WithParentCopies | src/main/java/bca/oraclelog/queryanalyzer/service/OracleQueryAnalyzer.java:54-70 | a parent row with all six columns set is copied field for field |
| OracleQueryAnalyzer.WithParentOfNulls | src/main/java/bca/oraclelog/queryanalyzer/service/OracleQueryAnalyzer.java:54-70 | null columns are read as zero |
| OracleQueryAnalyzer.RetrieveParentPlanDetails | src/main/java/bca/oraclelog/queryanalyzer/service/OracleQueryAnalyzer.java:41-74 | the query raises and the summary is untouched, or the summary takes the first id-0 row's figures (none changed when there is no such row) |
| OracleQueryAnalyzer.CopyParent | src/main/java/bca/oraclelog/queryanalyzer/service/OracleQueryAnalyzer.java:52-71 | the six setters leave the summary equal to the parent row's figures over the old summary |
| OracleQueryAnalyzer.SummaryOfFreshId | src/main/java/bca/oraclelog/queryanalyzer/service/OracleQueryAnalyzer.java:14-39 | for a statement id with no earlier rows, a successful analysis carries the id, the query and the elapsed time, and the figures of the optimizer's root row, all zero without one |
| OracleQueryAnalyzer.AnalyzeQuery | src/main/java/bca/oraclelog/queryanalyzer/service/OracleQueryAnalyzer.java:14-39 | a fresh summary and the exception thrown, as the summary outcome describes; the table is cleaned up either way |
| JavaText.UpperChar | src/main/java/bca/oraclelog/queryanalyzer/interceptor/OracleQueryInterceptor.java:87 | `toUpperCase` maps an ASCII lower-case letter to its capital and leaves every other character alone |
| JavaText.TrimLeft | src/main/java/bca/oraclelog/queryanalyzer/interceptor/OracleQueryInterceptor.java:87 | the leading characters removed are all at most U+0020, and what is left starts with a character above it |
| JavaText.TrimRight | src/main/java/bca/oraclelog/queryanalyzer/interceptor/OracleQueryInterceptor.java:87 | the trailing characters removed are all at most U+0020, and what is left ends with a character above it |
| JavaText.Trim | src/main/java/bca/oraclelog/queryanalyzer/interceptor/OracleQueryInterceptor.java:87 | `trim` leaves neither end trimmable and never lengthens |
| JavaText.TrimOfStable | src/main/java/bca/oraclelog/queryanalyzer/service/ExplainPlanAnalyzer.java:144 | trimming a trimmed string changes nothing |
| JavaText.TrimEmptyIffBlank | src/main/java/bca/oraclelog/queryanalyzer/service/ExplainPlanAnalyzer.java:111 | `trim().isEmpty()` holds exactly for blank strings |
| JavaText.TrimPadded | src/main/java/bca/oraclelog/queryanalyzer/service/ExplainPlanAnalyzer.java:144 | blank padding around a trimmed field is what `trim` removes |
| JavaText.TrimLeftUnchanged | src/main/java/bca/oraclelog/queryanalyzer/interceptor/OracleQueryInterceptor.java:87 | no leading blank, nothing removed at the front |
| JavaText.TrimLeftBlankPrefix | src/main/java/bca/oraclelog/queryanalyzer/interceptor/OracleQueryInterceptor.java:87 | a blank prefix does not change the left-trimmed result |
| JavaText.TrimLeftBlank | src/main/java/bca/oraclelog/queryanalyzer/service/ExplainPlanAnalyzer.java:190 | a blank string trims to empty from the left |
| JavaText.TrimRightBlankSuffix | src/main/java/bca/oraclelog/queryanalyzer/service/ExplainPlanAnalyzer.java:144 | a blank suffix after a non-blank end is what right trimming removes |
| JavaText.ToUpper | src/main/java/bca/oraclelog/queryanalyzer/interceptor/OracleQueryInterceptor.java:87 | upper-casing is character by character and keeps the length |
| JavaText.ToUpperNoLower | src/main/java/bca/oraclelog/queryanalyzer/service/ExplainPlanAnalyzer.java:192 | text without lower-case letters is unchanged |
| JavaText.ToUpperConcat | src/main/java/bca/oraclelog/queryanalyzer/service/ExplainPlanAnalyzer.java:192 | upper-casing distributes over concatenation |
| JavaText.ToUpperTrimCommute | src/main/java/bca/oraclelog/queryanalyzer/service/ExplainPlanAnalyzer.java:192 | trimming and upper-casing commute |
| JavaText.TrimLeftUpper | src/main/java/bca/oraclelog/queryanalyzer/service/ExplainPlanAnalyzer.java:192 | left trimming and upper-casing commute |
| JavaText.TrimRightUpper | src/main/java/bca/oraclelog/queryanalyzer/service/ExplainPlanAnalyzer.java:192 | right trimming and upper-casing commute |
| JavaText.ContainsAt | src/main/java/bca/oraclelog/queryanalyzer/service/ExplainPlanAnalyzer.java:71 | an occurrence at a position makes `contains` true |
| JavaText.ContainsWitness | src/main/java/bca/oraclelog/queryanalyzer/service/ExplainPlanAnalyzer.java:71 | `contains` true yields a position of the occurrence |
| JavaText.RemoveAll | src/main/java/bca/oraclelog/queryanalyzer/service/ExplainPlanAnalyzer.java:147 | `replaceAll("\\*", "")` leaves no `*`, never lengthens, and changes nothing without one |
| JavaText.RemoveAllConcat | src/main/java/bca/oraclelog/queryanalyzer/service/ExplainPlanAnalyzer.java:147 | removal distributes over concatenation |
| JavaText.ConcatAppend | src/main/java/bca/oraclelog/queryanalyzer/service/QueryFormatter.java:16-50 | a builder's text over two runs of parts is the first run's text followed by the second's |
| JavaText.ConcatSnoc | src/main/java/bca/oraclelog/queryanalyzer/service/QueryFormatter.java:16-50 | appending one part adds exactly its text |
| JavaText.Append | src/main/java/bca/oraclelog/queryanalyzer/service/QueryFormatter.java:16-50 | `sb.append` of a part's text keeps the builder equal to the text of the parts so far |
| JavaText.ConcatEmpty | src/main/java/bca/oraclelog/queryanalyzer/service/QueryFormatter.java:110 | parts with non-empty texts give empty text only when there are none |
| JavaText.ConcatShort | src/main/java/bca/oraclelog/queryanalyzer/service/ExplainPlanAnalyzer.java:66-78 | when every element adds at most one item, the collected list is no longer than the input |
| JavaText.Repeat | src/main/java/bca/oraclelog/queryanalyzer/service/QueryFormatter.java:12-13 | `"c".repeat(n)` is n copies of c |
| JavaText.Fields | src/main/java/bca/oraclelog/queryanalyzer/service/ExplainPlanAnalyzer.java:138 | splitting at a delimiter yields at least one field |
| JavaText.JoinFields | src/main/java/bca/oraclelog/queryanalyzer/service/ExplainPlanAnalyzer.java:138 | the fields, joined by the delimiter, give the string back, and none holds the delimiter |
| JavaText.JoinOfFields | src/main/java/bca/oraclelog/queryanalyzer/service/ExplainPlanAnalyzer.java:138 | the fields joined by the delimiter give the string back |
| JavaText.FieldsOmitDelimiter | src/main/java/bca/oraclelog/queryanalyzer/service/ExplainPlanAnalyzer.java:138 | no field holds the delimiter |
| JavaText.FieldsNoDelimiter | src/main/java/bca/oraclelog/queryanalyzer/service/ExplainPlanAnalyzer.java:138 | a string without the delimiter is its only field |
| JavaText.FieldsAfterDelimiter | src/main/java/bca/oraclelog/queryanalyzer/service/ExplainPlanAnalyzer.java:138 | the text before the first delimiter is the first field |
| JavaText.FieldsOfJoin | src/main/java/bca/oraclelog/queryanalyzer/service/ExplainPlanAnalyzer.java:138 | splitting delimiter-free fields joined by the delimiter gives them back |
| JavaText.DropTrailingEmpty | src/main/java/bca/oraclelog/queryanalyzer/service/ExplainPlanAnalyzer.java:138 | `split` drops exactly the trailing empty fields |
| JavaText.JavaSplit | src/main/java/bca/oraclelog/queryanalyzer/service/ExplainPlanAnalyzer.java:138 | `split("\\|")` is the whole string when there is no `\|`, else the fields without trailing empty ones |
| JavaText.JavaSplitPrefix | src/main/java/bca/oraclelog/queryanalyzer/service/ExplainPlanAnalyzer.java:138-139 | the split is a prefix of the fields, and the ones left out are empty |
| JavaText.JavaSplitOfJoin | src/main/java/bca/oraclelog/queryanalyzer/service/ExplainPlanAnalyzer.java:138 | splitting a join of two or more fields, the last non-empty, gives them back |
| JavaText.JavaSplitOfJoinTrailing | src/main/java/bca/oraclelog/queryanalyzer/service/ExplainPlanAnalyzer.java:138 | a trailing delimiter is dropped by `split` |
| JavaText.FirstToken | src/main/java/bca/oraclelog/queryanalyzer/service/ExplainPlanAnalyzer.java:173-175 | `split("\\s+")[0]` of a trimmed string is its longest prefix without whitespace |
| JavaText.FirstTokenConcat | src/main/java/bca/oraclelog/queryanalyzer/service/ExplainPlanAnalyzer.java:173-175 | a word followed by whitespace is the first token |
| JavaText.SkipSpaces | src/main/java/bca/oraclelog/queryanalyzer/service/QueryFormatter.java:57 | the whitespace run skipped is all whitespace, and what follows starts with a non-space |
| JavaText.CollapseSpaces | src/main/java/bca/oraclelog/queryanalyzer/service/QueryFormatter.java:57 | `replaceAll("\\s+", " ")` leaves no two adjacent whitespace characters, keeps whether the text starts with whitespace, and empties only the empty string |
| JavaText.SingleSpacedInfix | src/main/java/bca/oraclelog/queryanalyzer/service/QueryFormatter.java:57 | any slice of single-spaced text is single-spaced |
| JavaText.TrimKeepsSingleSpaced | src/main/java/bca/oraclelog/queryanalyzer/service/QueryFormatter.java:58 | the final `trim` keeps the text single-spaced |
| JavaText.Visible | src/main/java/bca/oraclelog/queryanalyzer/service/QueryFormatter.java:55-58 | the non-whitespace characters of a text are no more than the text |
| JavaText.VisibleConcat | src/main/java/bca/oraclelog/queryanalyzer/service/QueryFormatter.java:55-58 | visible characters distribute over concatenation |
| JavaText.VisibleBlank | src/main/java/bca/oraclelog/queryanalyzer/service/QueryFormatter.java:55-58 | a blank string has none |
| JavaText.VisibleTrimLeft | src/main/java/bca/oraclelog/queryanalyzer/service/QueryFormatter.java:55 | left trimming keeps every visible character |
| JavaText.VisibleTrimRight | src/main/java/bca/oraclelog/queryanalyzer/service/QueryFormatter.java:58 | right trimming keeps every visible character |
| JavaText.VisibleTrim | src/main/java/bca/oraclelog/queryanalyzer/service/QueryFormatter.java:55 | `trim` keeps every visible character |
| JavaText.VisibleSkipSpaces | src/main/java/bca/oraclelog/queryanalyzer/service/QueryFormatter.java:57 | skipping whitespace keeps every visible character |
| JavaText.VisibleCollapse | src/main/java/bca/oraclelog/queryanalyzer/service/QueryFormatter.java:57 | collapsing whitespace keeps every visible character, in order |
| JavaNumbers.DigitValue | src/main/java/bca/oraclelog/queryanalyzer/service/ExplainPlanAnalyzer.java:147 | a decimal digit's value is below ten |
| JavaNumbers.DigitChar | src/main/java/bca/oraclelog/queryanalyzer/service/QueryFormatter.java:22 | the digit printed for a value below ten reads back as that value |
| JavaNumbers.Pow10 | src/main/java/bca/oraclelog/queryanalyzer/service/ExplainPlanAnalyzer.java:196-200 | powers of ten are positive |
| JavaNumbers.NatText | src/main/java/bca/oraclelog/queryanalyzer/service/QueryFormatter.java:22 | a number prints as a non-empty run of digits that reads back as the number |
| JavaNumbers.NatTextLength | src/main/java/bca/oraclelog/queryanalyzer/service/QueryFormatter.java:21 | a number below 10^width prints in at most width digits |
| JavaNumbers.LongValue | src/main/java/bca/oraclelog/queryanalyzer/service/ExplainPlanAnalyzer.java:122 | `longValue()` is the value itself in the long range, else the value modulo 2^64 in that range |
| JavaNumbers.IntText | src/main/java/bca/oraclelog/queryanalyzer/service/ExplainPlanAnalyzer.java:22 | a long printed in decimal is never empty |
| JavaNumbers.IntTextShape | src/main/java/bca/oraclelog/queryanalyzer/service/ExplainPlanAnalyzer.java:22 | a printed integer is trimmed, has no lower-case letter, space, `\|` or `*`, and ends with a digit |
| JavaNumbers.ParseInteger | src/main/java/bca/oraclelog/queryanalyzer/service/ExplainPlanAnalyzer.java:147 | `parseInt`/`parseLong` succeeds only within the type's range and otherwise throws NumberFormatException |
| JavaNumbers.ParseIntText | src/main/java/bca/oraclelog/queryanalyzer/service/ExplainPlanAnalyzer.java:147 | parsing a printed integer in range gives it back |
| JavaNumbers.ParseIntegerRejects | src/main/java/bca/oraclelog/queryanalyzer/service/ExplainPlanAnalyzer.java:202 | a non-digit other than a leading sign makes parsing throw |
| JavaNumbers.IndexOf | src/main/java/bca/oraclelog/queryanalyzer/service/ExplainPlanAnalyzer.java:196 | the index of a character lies within the string or is its length |
| JavaNumbers.ParseDecimal | src/main/java/bca/oraclelog/queryanalyzer/service/ExplainPlanAnalyzer.java:196 | `Double.parseDouble` fails only with NumberFormatException |
| JavaNumbers.ParseDecimalText | src/main/java/bca/oraclelog/queryanalyzer/service/ExplainPlanAnalyzer.java:196 | a trimmed signed decimal fails only with NumberFormatException |
| JavaNumbers.ParseUnsignedDecimal | src/main/java/bca/oraclelog/queryanalyzer/service/ExplainPlanAnalyzer.java:196 | an unsigned decimal fails only with NumberFormatException |
| JavaNumbers.ExponentIndex | src/main/java/bca/oraclelog/queryanalyzer/service/ExplainPlanAnalyzer.java:196 | the exponent marker lies within the text or there is none |
| JavaNumbers.ParseScientific | src/main/java/bca/oraclelog/queryanalyzer/service/ExplainPlanAnalyzer.java:196 | a decimal with an exponent fails only with NumberFormatException |
| JavaNumbers.IndexOfAbsent | src/main/java/bca/oraclelog/queryanalyzer/service/ExplainPlanAnalyzer.java:196 | an absent character's index is the length |
| JavaNumbers.IndexOfFirst | src/main/java/bca/oraclelog/queryanalyzer/service/ExplainPlanAnalyzer.java:196 | the index is that of the first occurrence |
| JavaNumbers.UnsignedOfMantissa | src/main/java/bca/oraclelog/queryanalyzer/service/ExplainPlanAnalyzer.java:196 | without exponent or type suffix the value is the mantissa's |
| JavaNumbers.MantissaOfDigits | src/main/java/bca/oraclelog/queryanalyzer/service/ExplainPlanAnalyzer.java:196 | digits alone give their integer value |
| JavaNumbers.MantissaOfPoint | src/main/java/bca/oraclelog/queryanalyzer/service/ExplainPlanAnalyzer.java:196 | `ip.fp` gives the integer part plus the fraction |
| JavaNumbers.PointSplit | src/main/java/bca/oraclelog/queryanalyzer/service/ExplainPlanAnalyzer.java:196 | the first point of `ip.fp` separates exactly ip and fp |
| JavaNumbers.ParseDecimalOfStable | src/main/java/bca/oraclelog/queryanalyzer/service/ExplainPlanAnalyzer.java:196 | a trimmed text needs no further trimming |
| JavaNumbers.ParseDecimalTextUnsigned | src/main/java/bca/oraclelog/queryanalyzer/service/ExplainPlanAnalyzer.java:196 | a text without a sign is parsed as unsigned |
| JavaNumbers.PointBodyPlain | src/main/java/bca/oraclelog/queryanalyzer/service/ExplainPlanAnalyzer.java:196 | `ip.fp` has no exponent, no type suffix and no trailing blank |
| JavaNumbers.ParseDecimalOfDigits | src/main/java/bca/oraclelog/queryanalyzer/service/ExplainPlanAnalyzer.java:196 | `parseDouble` of digits is their value |
| JavaNumbers.DigitsPlain | src/main/java/bca/oraclelog/queryanalyzer/service/ExplainPlanAnalyzer.java:196 | digits are trimmed, unsigned and without exponent or suffix |
| JavaNumbers.ParseDecimalOfPoint | src/main/java/bca/oraclelog/queryanalyzer/service/ExplainPlanAnalyzer.java:196 | `parseDouble("ip.fp")` is ip plus the fraction fp |
| JavaNumbers.PointBodyValue | src/main/java/bca/oraclelog/queryanalyzer/service/ExplainPlanAnalyzer.java:196 | the unsigned value of `ip.fp` is ip plus the fraction |
| JavaNumbers.LongCast | src/main/java/bca/oraclelog/queryanalyzer/service/ExplainPlanAnalyzer.java:196-200 | `(long)` of a double truncates toward zero and saturates at the long range |
| JavaNumbers.ZeroPad | src/main/java/bca/oraclelog/queryanalyzer/service/QueryDebugFormatter.java:12 | a zero-padded field is at least the width |
| JavaNumbers.RoundHalfUp | src/main/java/bca/oraclelog/queryanalyzer/service/QueryFormatter.java:23 | `%.Nf` rounds half up: the result is the nearest integer, halves going up |
| JavaNumbers.Quotient | src/main/java/bca/oraclelog/queryanalyzer/service/QueryFormatter.java:23 | `%.Nf` splits the rounded value into its whole part and its N decimals by integer division |
| JavaNumbers.PadRight | src/main/java/bca/oraclelog/queryanalyzer/service/QueryFormatter.java:64-74 | `%-Ns` keeps the text and pads it with spaces to width N, never cutting it |
| NumericNotation.ParseNormalized | src/main/java/bca/oraclelog/queryanalyzer/service/ExplainPlanAnalyzer.java:195-203 | a `K`/`M`/`G` suffix scales a decimal by 10^3/10^6/10^9 with a saturating cast; anything else is `parseLong`; results are longs and failures NumberFormatException |
| NumericNotation.ParseNumericValue | src/main/java/bca/oraclelog/queryanalyzer/service/ExplainPlanAnalyzer.java:189-204 | null gives 0, results are longs, failures are NumberFormatException |
| NumericNotation.ParseNumericBlank | src/main/java/bca/oraclelog/queryanalyzer/service/ExplainPlanAnalyzer.java:190 | a blank value gives 0 |
| NumericNotation.ParseNumericOfIntText | src/main/java/bca/oraclelog/queryanalyzer/service/ExplainPlanAnalyzer.java:202 | a printed long reads back as itself |
| NumericNotation.ParseNumericNonBlank | src/main/java/bca/oraclelog/queryanalyzer/service/ExplainPlanAnalyzer.java:192 | a non-blank value is trimmed and upper-cased before it is read |
| NumericNotation.NormalizedPlain | src/main/java/bca/oraclelog/queryanalyzer/service/ExplainPlanAnalyzer.java:202 | without a suffix the value is `Long.parseLong` |
| NumericNotation.NormalizedSuffixed | src/main/java/bca/oraclelog/queryanalyzer/service/ExplainPlanAnalyzer.java:195-200 | with a suffix the value is the scaled decimal, cast to long |
| NumericNotation.ParseNumericOfSuffixText | src/main/java/bca/oraclelog/queryanalyzer/service/ExplainPlanAnalyzer.java:192-195 | a lower-case suffix is read as its capital |
| NumericNotation.UpperWithSuffix | src/main/java/bca/oraclelog/queryanalyzer/service/ExplainPlanAnalyzer.java:192 | upper-casing text without lower-case letters only changes the suffix |
| NumericNotation.SuffixUpper | src/main/java/bca/oraclelog/queryanalyzer/service/ExplainPlanAnalyzer.java:195-199 | `k`, `m`, `g` in either case are the suffixes K, M, G |
| NumericNotation.ParseNumericOfSuffixed | src/main/java/bca/oraclelog/queryanalyzer/service/ExplainPlanAnalyzer.java:195-200 | `xK` is x·1000, `xM` x·10^6 and `xG` x·10^9, cast to long |
| NumericNotation.NormalizedRejects | src/main/java/bca/oraclelog/queryanalyzer/service/ExplainPlanAnalyzer.java:202 | trimmed, upper-cased text with no suffix and a non-digit after the sign fails with NumberFormatException |
| NumericNotation.ParseNumericRejectsNonInteger | src/main/java/bca/oraclelog/queryanalyzer/service/ExplainPlanAnalyzer.java:202 | an unsuffixed value with a non-digit after the sign throws NumberFormatException |
| NumericNotation.ParseNumericExampleRejected | src/main/java/bca/oraclelog/queryanalyzer/service/ExplainPlanAnalyzer.java:202 | `1.5` and `abc` are rejected, since `parseLong` takes no fraction |
| PlanLines.ParseStepId | src/main/java/bca/oraclelog/queryanalyzer/service/ExplainPlanAnalyzer.java:144-150 | an id is an int, and an empty or `*` id field gives no step |
| PlanLines.CountOrZero | src/main/java/bca/oraclelog/queryanalyzer/service/ExplainPlanAnalyzer.java:161-165 | a count read from a field is a long, 0 when it cannot be read |
| PlanLines.RowsField | src/main/java/bca/oraclelog/queryanalyzer/service/ExplainPlanAnalyzer.java:159-166 | the Rows field gives a long |
| PlanLines.CostField | src/main/java/bca/oraclelog/queryanalyzer/service/ExplainPlanAnalyzer.java:169-180 | the Cost field gives a value in the long range |
| PlanLines.ParsePlanLine | src/main/java/bca/oraclelog/queryanalyzer/service/ExplainPlanAnalyzer.java:135-187 | a line with fewer than 7 fields is rejected; an accepted one has an int id, a trimmed operation, a trimmed non-empty name or none, long rows and cost, and no predicates |
| PlanLines.ParsePlanLineOfParts | src/main/java/bca/oraclelog/queryanalyzer/service/ExplainPlanAnalyzer.java:138-182 | with 7 fields and an id, the step is built from the fields |
| PlanLines.ParseStepIdOf | src/main/java/bca/oraclelog/queryanalyzer/service/ExplainPlanAnalyzer.java:144-147 | a padded id text is read as that text without `*`, trimmed again and parsed |
| PlanLines.IdTextShape | src/main/java/bca/oraclelog/queryanalyzer/service/ExplainPlanAnalyzer.java:144-147 | a printed id, with or without its `*` marker, has no surrounding blanks, is never a lone `*`, and gives the decimal id once the `*` is removed |
| PlanLines.StepIdOfRendered | src/main/java/bca/oraclelog/queryanalyzer/service/ExplainPlanAnalyzer.java:144-147 | an id printed with or without DISPLAY's `*` marker reads back as itself |
| PlanLines.RowsOfRendered | src/main/java/bca/oraclelog/queryanalyzer/service/ExplainPlanAnalyzer.java:159-162 | a printed row count reads back as itself |
| PlanLines.CostFieldOf | src/main/java/bca/oraclelog/queryanalyzer/service/ExplainPlanAnalyzer.java:169-175 | the cost is the first whitespace-separated token of the trimmed field |
| PlanLines.CostOfRendered | src/main/java/bca/oraclelog/queryanalyzer/service/ExplainPlanAnalyzer.java:169-175 | a field like `1622 (1%)` gives cost 1622 |
| PlanLines.CostColumnText | src/main/java/bca/oraclelog/queryanalyzer/service/ExplainPlanAnalyzer.java:169-173 | the trimmed cost field is the number, a space and the CPU share, and the number is its first token |
| PlanLines.CostBodyStable | src/main/java/bca/oraclelog/queryanalyzer/service/ExplainPlanAnalyzer.java:169 | `number cpu` starts and ends with a visible character, so trimming the padded field strips only the padding |
| PlanLines.CostBodyToken | src/main/java/bca/oraclelog/queryanalyzer/service/ExplainPlanAnalyzer.java:173 | the first token of `number cpu` is the number |
| PlanLines.ParseRenderedLine | src/main/java/bca/oraclelog/queryanalyzer/service/ExplainPlanAnalyzer.java:135-187 | a DISPLAY row printed from an id, operation, name, row count, bytes, cost and CPU share parses back to exactly that step (round trip) |
| PlanLines.RenderedFieldsNoBar | src/main/java/bca/oraclelog/queryanalyzer/service/ExplainPlanAnalyzer.java:138 | no column of a printed row contains `\|`, so the split cannot cut a column |
| PlanLines.RenderedSplit | src/main/java/bca/oraclelog/queryanalyzer/service/ExplainPlanAnalyzer.java:138 | splitting a printed row at `\|` yields its columns |
| PlanLines.NoBarInNumbers | src/main/java/bca/oraclelog/queryanalyzer/service/ExplainPlanAnalyzer.java:138 | printed numbers hold no `\|` |
| PlanLines.PaddedNoBar | src/main/java/bca/oraclelog/queryanalyzer/service/ExplainPlanAnalyzer.java:138 | padding adds no `\|` |
| PlanLines.StepOfRendered | src/main/java/bca/oraclelog/queryanalyzer/service/ExplainPlanAnalyzer.java:152-180 | printed columns give back the operation, name, rows and cost they were printed from |
| SqlReflow.FirstMatch | src/main/java/bca/oraclelog/queryanalyzer/service/QueryFormatter.java:56 | a keyword match lies within the text |
| SqlReflow.KeywordAt | src/main/java/bca/oraclelog/queryanalyzer/service/QueryFormatter.java:56 | a whole-word keyword match lies within the text |
| SqlReflow.Resume | src/main/java/bca/oraclelog/queryanalyzer/service/QueryFormatter.java:56 | scanning always moves forward within the text |
| SqlReflow.Piece | src/main/java/bca/oraclelog/queryanalyzer/service/QueryFormatter.java:56 | each scanned piece is copied as is, or with a line break before a keyword |
| SqlReflow.InsertBreaksOnlyAddsBreaks | src/main/java/bca/oraclelog/queryanalyzer/service/QueryFormatter.java:56 | inserting breaks before keywords changes nothing but line breaks |
| SqlReflow.BreakThenSame | src/main/java/bca/oraclelog/queryanalyzer/service/QueryFormatter.java:56 | a piece with a break added differs from the original only by that break |
| SqlReflow.InsertBreaksStep | src/main/java/bca/oraclelog/queryanalyzer/service/QueryFormatter.java:56 | each position yields its own text, with a line break before it when a keyword matches there, and scanning resumes after it |
| SqlReflow.VisibleInsertBreaks | src/main/java/bca/oraclelog/queryanalyzer/service/QueryFormatter.java:56 | the inserted breaks keep every visible character |
| SqlReflow.BreakThenVisible | src/main/java/bca/oraclelog/queryanalyzer/service/QueryFormatter.java:56 | a break added before a piece adds no visible character |
| SqlReflow.FormatQueryVisible | src/main/java/bca/oraclelog/queryanalyzer/service/QueryFormatter.java:53-59 | the shown query has exactly the query's visible characters, in order |
| SqlReflow.FormatQueryShape | src/main/java/bca/oraclelog/queryanalyzer/service/QueryFormatter.java:53-59 | the shown query has no line break, no two adjacent blanks, no blank at either end, and exactly the query's visible characters in order |
| QueryFormatter.Truncate | src/main/java/bca/oraclelog/queryanalyzer/service/QueryFormatter.java:117-120 | null gives the empty string; a text within the width is kept; a longer one becomes its first width−3 characters and `...`, exactly the width |
| QueryFormatter.TruncateIdempotent | src/main/java/bca/oraclelog/queryanalyzer/service/QueryFormatter.java:117-120 | truncating a truncated text changes nothing |
| QueryFormatter.FormatExecutionPlan | src/main/java/bca/oraclelog/queryanalyzer/service/QueryFormatter.java:61-85 | the method's text is the headings, the 75 dashes and each step's lines in list order, or a NullPointerException for a null step list |
| QueryFormatter.TableTextSnoc | src/main/java/bca/oraclelog/queryanalyzer/service/QueryFormatter.java:68-82 | the table after step i is the table before it plus that step's lines |
| QueryFormatter.TableHead | src/main/java/bca/oraclelog/queryanalyzer/service/QueryFormatter.java:64-66 | the table opens with the column headings and a line of dashes |
| QueryFormatter.StepText | src/main/java/bca/oraclelog/queryanalyzer/service/QueryFormatter.java:69-81 | one step prints its row, then its Access line and its Filter line when present |
| QueryFormatter.RowStepsAppend | src/main/java/bca/oraclelog/queryanalyzer/service/QueryFormatter.java:68-82 | the steps shown by two runs of lines are those of the first followed by those of the second |
| QueryFormatter.StepRows | src/main/java/bca/oraclelog/queryanalyzer/service/QueryFormatter.java:69-81 | a step's lines show exactly one row, that step's |
| QueryFormatter.PlanRowsInOrder | src/main/java/bca/oraclelog/queryanalyzer/service/QueryFormatter.java:61-85 | the table starts with headings and dashes, and its rows show exactly the plan's steps, in order |
| QueryFormatter.StepLinesShape | src/main/java/bca/oraclelog/queryanalyzer/service/QueryFormatter.java:69-81 | a step's row comes first; an Access or Filter line appears exactly when that predicate is non-null, Access first |
| QueryFormatter.FormatIntHead | src/main/java/bca/oraclelog/queryanalyzer/service/QueryFormatter.java:69 | `%d` never starts with a blank |
| QueryFormatter.RowHead | src/main/java/bca/oraclelog/queryanalyzer/service/QueryFormatter.java:69-74 | a step row never starts with a blank |
| QueryFormatter.LineIndented | src/main/java/bca/oraclelog/queryanalyzer/service/QueryFormatter.java:76-81 | a line starts with the five-space indent exactly when it is a predicate line, so rows and predicates are told apart |
| QueryFormatter.AdviceText | src/main/java/bca/oraclelog/queryanalyzer/service/QueryFormatter.java:91-112 | every recommendation block prints some text |
| QueryFormatter.StepAdvice | src/main/java/bca/oraclelog/queryanalyzer/service/QueryFormatter.java:98-107 | a step's check throws a NullPointerException exactly when its operation is null |
| QueryFormatter.StepsAdvice | src/main/java/bca/oraclelog/queryanalyzer/service/QueryFormatter.java:98-108 | the step checks fail only with a NullPointerException |
| QueryFormatter.StepsAdviceNull | src/main/java/bca/oraclelog/queryanalyzer/service/QueryFormatter.java:99 | one null operation makes the whole list throw |
| QueryFormatter.AdviceTextSnoc | src/main/java/bca/oraclelog/queryanalyzer/service/QueryFormatter.java:98-108 | the text after step i is the text before it plus that step's blocks |
| QueryFormatter.AdviceTextEmpty | src/main/java/bca/oraclelog/queryanalyzer/service/QueryFormatter.java:110-112 | the builder is empty exactly when no block was appended |
| QueryFormatter.GenerateRecommendations | src/main/java/bca/oraclelog/queryanalyzer/service/QueryFormatter.java:87-115 | the method's text is the text of the plan's recommendation blocks |
| QueryFormatter.StepAdviceText | src/main/java/bca/oraclelog/queryanalyzer/service/QueryFormatter.java:99-107 | one step appends its full-scan block and its sort block, in that order, when they apply |
| QueryFormatter.ScansAppend | src/main/java/bca/oraclelog/queryanalyzer/service/QueryFormatter.java:98-108 | full scans and sort alerts are counted part by part |
| QueryFormatter.StepsAdviceReports | src/main/java/bca/oraclelog/queryanalyzer/service/QueryFormatter.java:98-108 | the blocks name exactly the objects of the steps whose operation contains `TABLE ACCESS FULL`, in order, and raise one sort alert per step with `SORT` and cost above 100 |
| QueryFormatter.StepsAdviceSucceeds | src/main/java/bca/oraclelog/queryanalyzer/service/QueryFormatter.java:98-108 | the step checks succeed exactly when no operation is null |
| QueryFormatter.NoReportsNoAdvice | src/main/java/bca/oraclelog/queryanalyzer/service/QueryFormatter.java:110 | without scans or sort alerts there are no step blocks |
| QueryFormatter.AdvicesPromise | src/main/java/bca/oraclelog/queryanalyzer/service/QueryFormatter.java:87-115 | the recommendations succeed exactly when the step list and every operation are non-null; the high-cost block comes first exactly when the total cost exceeds 1000; "no major issues" stands alone exactly when nothing was flagged; otherwise the blocks report exactly the full scans and costly sorts |
| QueryFormatter.FormatAnalysis | src/main/java/bca/oraclelog/queryanalyzer/service/QueryFormatter.java:15-51 | the method's text is the report of the plan at the given time, or its NullPointerException |
| QueryFormatter.FinishReport | src/main/java/bca/oraclelog/queryanalyzer/service/QueryFormatter.java:31-50 | after the banner and the query section, the builder completes the report |
| QueryFormatter.ReportSucceeds | src/main/java/bca/oraclelog/queryanalyzer/service/QueryFormatter.java:15-51 | `formatAnalysis` returns exactly when the query, the step list and every operation are non-null, and otherwise throws a NullPointerException |
| QueryFormatter.TitlesAppend | src/main/java/bca/oraclelog/queryanalyzer/service/QueryFormatter.java:15-51 | the section titles of two runs of parts are those of the first followed by those of the second |
| QueryFormatter.TitlesOne | src/main/java/bca/oraclelog/queryanalyzer/service/QueryFormatter.java:15-51 | a titled part contributes its title, others none |
| QueryFormatter.ReportOrder | src/main/java/bca/oraclelog/queryanalyzer/service/QueryFormatter.java:18-48 | the report opens with the banner, closes with the separator, and its sections are query, plan, call stack (only when non-null and non-empty) and recommendations, in that order |
| QueryDebugFormatter.Pow1024 | src/main/java/bca/oraclelog/queryanalyzer/service/QueryDebugFormatter.java:69 | powers of 1024 are positive |
| QueryDebugFormatter.Pow1024Monotone | src/main/java/bca/oraclelog/queryanalyzer/service/QueryDebugFormatter.java:66 | powers of 1024 grow with the exponent |
| QueryDebugFormatter.DigitGroupsBounds | src/main/java/bca/oraclelog/queryanalyzer/service/QueryDebugFormatter.java:66 | for a positive count, the unit index k satisfies 1024^k ≤ bytes < 1024^(k+1) |
| QueryDebugFormatter.DigitGroupsUnique | src/main/java/bca/oraclelog/queryanalyzer/service/QueryDebugFormatter.java:66 | that k is the only one |
| QueryDebugFormatter.FormatBytesPromise | src/main/java/bca/oraclelog/queryanalyzer/service/QueryDebugFormatter.java:62-71 | 0 prints `0 B`; a count in [1024^k, 1024^(k+1)) prints its value in unit k, between 1 and 1024, with one decimal; a negative count prints as bytes; from 1024^5 on the unit index is out of range and it throws |
| QueryDebugFormatter.FormatBytesNegative | src/main/java/bca/oraclelog/queryanalyzer/service/QueryDebugFormatter.java:66-71 | a negative count is printed in bytes |
| QueryDebugFormatter.FormatBytesFails | src/main/java/bca/oraclelog/queryanalyzer/service/QueryDebugFormatter.java:65-70 | `formatBytes` throws IndexOutOfBounds exactly from 1024^5 bytes on |
| QueryDebugFormatter.FormatBytesUnit | src/main/java/bca/oraclelog/queryanalyzer/service/QueryDebugFormatter.java:66-70 | a count in [1024^k, 1024^(k+1)) prints its scaled value, between 1 and 1024, in unit k |
| QueryDebugFormatter.ScaledIntoRange | src/main/java/bca/oraclelog/queryanalyzer/service/QueryDebugFormatter.java:69 | a count scaled by its unit lies in [1, 1024) |
| QueryDebugFormatter.GeneratePerformanceAssessment | src/main/java/bca/oraclelog/queryanalyzer/service/QueryDebugFormatter.java:73-110 | the method's text is the text of the summary's assessment notes |
| QueryDebugFormatter.AssessCost | src/main/java/bca/oraclelog/queryanalyzer/service/QueryDebugFormatter.java:79-87 | the cost line is that of the cost's tier |
| QueryDebugFormatter.AssessRows | src/main/java/bca/oraclelog/queryanalyzer/service/QueryDebugFormatter.java:90-95 | the builder gains the cardinality line, if any |
| QueryDebugFormatter.AssessRatio | src/main/java/bca/oraclelog/queryanalyzer/service/QueryDebugFormatter.java:98-107 | the builder gains the I/O-versus-CPU line, if any |
| QueryDebugFormatter.ShareAbove | src/main/java/bca/oraclelog/queryanalyzer/service/QueryDebugFormatter.java:99-103 | comparing a share against a bound equals comparing the part against the bound times the total |
| QueryDebugFormatter.RatioThresholds | src/main/java/bca/oraclelog/queryanalyzer/service/QueryDebugFormatter.java:99-103 | with both costs positive, the query is I/O bound exactly when I/O exceeds four times CPU, and CPU bound exactly when CPU exceeds four times I/O |
| QueryDebugFormatter.CostTierMonotone | src/main/java/bca/oraclelog/queryanalyzer/service/QueryDebugFormatter.java:79-87 | a higher cost never gets a lower tier |
| QueryDebugFormatter.AssessmentPromise | src/main/java/bca/oraclelog/queryanalyzer/service/QueryDebugFormatter.java:73-110 | the assessment is the heading, then the cost line (HIGH above 10000, LOW up to 1000), then a cardinality line exactly above 10,000 rows (HIGH above 1,000,000), then an I/O-bound or CPU-bound line exactly when both costs are positive and one exceeds four times the other, with a percentage in (80, 100] |
| QueryDebugFormatter.FormatQueryDebug | src/main/java/bca/oraclelog/queryanalyzer/service/QueryDebugFormatter.java:14-53 | the method's text is the debug report of the summary, or its exception |
| QueryDebugFormatter.FinishDebug | src/main/java/bca/oraclelog/queryanalyzer/service/QueryDebugFormatter.java:31-52 | after the banner and the query section, the builder completes the report |
| QueryDebugFormatter.CloseDebug | src/main/java/bca/oraclelog/queryanalyzer/service/QueryDebugFormatter.java:44-50 | the builder adds the call stack when non-null and non-empty, then the separator |
| QueryDebugFormatter.DebugReportSucceeds | src/main/java/bca/oraclelog/queryanalyzer/service/QueryDebugFormatter.java:14-53 | `formatQueryDebug` returns exactly when the timestamp is non-null and the byte count is below 1024^5; a null timestamp throws a NullPointerException, and a larger count IndexOutOfBounds |
| QueryDebugFormatter.DebugSections | src/main/java/bca/oraclelog/queryanalyzer/service/QueryDebugFormatter.java:17-50 | the report is the banner, the SQL section only when the query is non-null, the figures, the assessment, the call stack only when non-empty, and the separator, in that order |
| QueryDebugFormatter.ShownQueryShape | src/main/java/bca/oraclelog/queryanalyzer/service/QueryDebugFormatter.java:25-28 | the SQL section is shown exactly for a non-null query, and the text is single-line, single-spaced and trimmed |
| Listeners.InitializedSettles | src/main/java/bca/oraclelog/queryanalyzer/interceptor/OracleQueryInterceptor.java:49-59 | once the context holds the properties, one initialisation loads them and later ones change nothing and log nothing; a missing analyzer bean leaves only the properties loaded, for good |
| Listeners.StartsWithAnyMember | src/main/java/bca/oraclelog/queryanalyzer/interceptor/OracleQueryInterceptor.java:88-91 | the chain of `startsWith` tests holds exactly when the text starts with one of the verbs |
| Listeners.ToUpperIdempotent | src/main/java/bca/oraclelog/queryanalyzer/interceptor/OracleQueryInterceptor.java:87 | upper-casing twice is upper-casing once |
| Listeners.AnalyzableIgnoresCase | src/main/java/bca/oraclelog/queryanalyzer/interceptor/OracleQueryInterceptor.java:86-92 | whether a statement is analysed does not depend on letter case |
| Listeners.AnalyzableIgnoresLeadingBlanks | src/main/java/bca/oraclelog/queryanalyzer/interceptor/OracleQueryInterceptor.java:86-92 | nor on leading blanks |
| Listeners.AnalyzableByFirstSix | src/main/java/bca/oraclelog/queryanalyzer/interceptor/OracleQueryInterceptor.java:86-92 | after leading blanks, a statement is analysed exactly when its first six characters are SELECT, INSERT, UPDATE or DELETE in any case |
| Listeners.VerbPrefix | src/main/java/bca/oraclelog/queryanalyzer/interceptor/OracleQueryInterceptor.java:88-91 | starting with a verb means the first six characters are one |
| Listeners.TrimOfLeadingWord | src/main/java/bca/oraclelog/queryanalyzer/interceptor/OracleQueryInterceptor.java:87 | trimming after a blank prefix starts at the first word |
| Listeners.VerbHasNoBlank | src/main/java/bca/oraclelog/queryanalyzer/interceptor/OracleQueryInterceptor.java:87-91 | a six-character verb holds no trimmable character |
| Listeners.UpperPrefix | src/main/java/bca/oraclelog/queryanalyzer/interceptor/OracleQueryInterceptor.java:87-91 | the first six upper-cased characters are the upper-cased first word |
| Listeners.Window | src/main/java/bca/oraclelog/queryanalyzer/interceptor/OracleQueryInterceptor.java:125-126 | the frames looked at are those from index 4 up to the limit, never more than limit − 4 |
| Listeners.KeptFrames | src/main/java/bca/oraclelog/queryanalyzer/interceptor/OracleQueryInterceptor.java:127 | filtering frames never adds any |
| Listeners.CurrentStackTrace | src/main/java/bca/oraclelog/queryanalyzer/interceptor/OracleQueryInterceptor.java:120-133 | the method's text is one `  at <frame>` line per kept frame of the window, in stack order |
| Listeners.KeptFramesSnoc | src/main/java/bca/oraclelog/queryanalyzer/interceptor/OracleQueryInterceptor.java:125-130 | one more frame adds itself when kept, and nothing otherwise |
| Listeners.KeptFramesAppend | src/main/java/bca/oraclelog/queryanalyzer/interceptor/OracleQueryInterceptor.java:125-130 | filtering distributes over concatenation |
| Listeners.KeptFramesMembers | src/main/java/bca/oraclelog/queryanalyzer/interceptor/OracleQueryInterceptor.java:127 | a frame survives exactly when it was there and its class names none of the markers |
| Listeners.StackTextLines | src/main/java/bca/oraclelog/queryanalyzer/interceptor/OracleQueryInterceptor.java:120-133 | a frame is printed exactly when it is kept and sits at an index from 4 up to the limit; at most limit − 4 lines; the text is empty exactly when no frame is kept |
| Listeners.StackTextSplits | src/main/java/bca/oraclelog/queryanalyzer/interceptor/OracleQueryInterceptor.java:125-130 | the text splits at any index of the window into the lines before and after it |
| Listeners.Selected | src/main/java/bca/oraclelog/queryanalyzer/interceptor/OracleQueryInterceptor.java:69-71 | the statements analysed are never more than the batch |
| Listeners.BatchSnoc | src/main/java/bca/oraclelog/queryanalyzer/interceptor/OracleQueryInterceptor.java:69-78 | after statement i the world is the handled one when the statement is analysable, and unchanged otherwise |
| Listeners.BatchAppend | src/main/java/bca/oraclelog/queryanalyzer/interceptor/OracleQueryInterceptor.java:69-78 | a batch split in two is handled as the first part, then the second |
| Listeners.BatchSkips | src/main/java/bca/oraclelog/queryanalyzer/interceptor/OracleQueryInterceptor.java:69-78 | a batch with nothing analysable changes nothing |
| Listeners.BatchKeeps | src/main/java/bca/oraclelog/queryanalyzer/interceptor/OracleQueryInterceptor.java:69-78 | whatever each statement preserves, the batch preserves |
| Listeners.BatchRepeats | src/main/java/bca/oraclelog/queryanalyzer/interceptor/OracleQueryInterceptor.java:69-78 | when every statement has the same effect, the batch applies it once per analysable statement |
| QueryInterceptor.DefaultsInactive | src/main/java/bca/oraclelog/queryanalyzer/config/QueryAnalyzerProperties.java:10-15 | the analysis listener is off as constructed and on once enabled, the mode being `development` by default |
| QueryInterceptor.Reported | src/main/java/bca/oraclelog/queryanalyzer/interceptor/OracleQueryInterceptor.java:101-117 | formatting and publishing leave `PLAN_TABLE` alone |
| QueryInterceptor.FormattedIgnoresRows | src/main/java/bca/oraclelog/queryanalyzer/interceptor/OracleQueryInterceptor.java:107-116 | formatting and publishing do not depend on `PLAN_TABLE` |
| QueryInterceptor.HandledOutcome | src/main/java/bca/oraclelog/queryanalyzer/interceptor/OracleQueryInterceptor.java:72-117 | each analysable statement either publishes the formatter's report of a plan of that query, or adds exactly one log entry (no data source, or the exception caught) and prints nothing |
| QueryInterceptor.HandledWithQueryFormatter | src/main/java/bca/oraclelog/queryanalyzer/interceptor/OracleQueryInterceptor.java:100-117 | with `QueryFormatter`, an explained statement publishes exactly `formatAnalysis` of its plan, or when a step has a null operation logs one NullPointerException; the table loses the statement's rows |
| QueryInterceptor.HandledAppends | src/main/java/bca/oraclelog/queryanalyzer/interceptor/OracleQueryInterceptor.java:72-76 | a statement only appends to the console and the log |
| QueryInterceptor.HandledWithoutDataSource | src/main/java/bca/oraclelog/queryanalyzer/interceptor/OracleQueryInterceptor.java:95-98 | without a data source a statement only logs a warning |
| QueryInterceptor.HandledWithoutAnalyzer | src/main/java/bca/oraclelog/queryanalyzer/interceptor/OracleQueryInterceptor.java:100-101 | without the analyzer bean a statement only logs the exception: the connection's, else a NullPointerException |
| QueryInterceptor.HandledKeepsOtherRows | src/main/java/bca/oraclelog/queryanalyzer/interceptor/OracleQueryInterceptor.java:100-101 | a statement touches `PLAN_TABLE` only under its own statement id |
| QueryInterceptor.HandledLeavesNoRows | src/main/java/bca/oraclelog/queryanalyzer/interceptor/OracleQueryInterceptor.java:100-101 | unless DELETE fails, a statement leaves no new statement id behind |
| QueryInterceptor.WarnedSteps | src/main/java/bca/oraclelog/queryanalyzer/interceptor/OracleQueryInterceptor.java:75 | n identical warnings append n entries |
| QueryInterceptor.BatchWithoutDataSource | src/main/java/bca/oraclelog/queryanalyzer/interceptor/OracleQueryInterceptor.java:69-98 | without a data source a batch logs one warning per analysable statement and nothing else |
| QueryInterceptor.BatchWithoutAnalyzer | src/main/java/bca/oraclelog/queryanalyzer/interceptor/OracleQueryInterceptor.java:49-79 | when the properties loaded but the analyzer did not, every analysable statement logs the same exception and nothing is printed or explained |
| QueryInterceptor.BatchAppends | src/main/java/bca/oraclelog/queryanalyzer/interceptor/OracleQueryInterceptor.java:69-78 | a batch only appends to the console and the log |
| QueryInterceptor.BatchTable | src/main/java/bca/oraclelog/queryanalyzer/interceptor/OracleQueryInterceptor.java:69-78 | a batch keeps the rows of every statement id none of its statements drew, and unless DELETE fails it leaves no new id |
| QueryInterceptor.OracleQueryInterceptor.constructor | src/main/java/bca/oraclelog/queryanalyzer/interceptor/OracleQueryInterceptor.java:35-42 | a new listener has its data source (or none), no context, no beans and empty outputs |
| QueryInterceptor.OracleQueryInterceptor.SetApplicationContext | src/main/java/bca/oraclelog/queryanalyzer/interceptor/OracleQueryInterceptor.java:45-47 | only the context changes |
| QueryInterceptor.OracleQueryInterceptor.InitializeDependencies | src/main/java/bca/oraclelog/queryanalyzer/interceptor/OracleQueryInterceptor.java:49-59 | the beans load in order up to the first one missing, only when the properties are not loaded yet and there is a context, and a failure logs one warning |
| QueryInterceptor.OracleQueryInterceptor.BeforeQuery | src/main/java/bca/oraclelog/queryanalyzer/interceptor/OracleQueryInterceptor.java:62-79 | after initialisation, the outputs are the batch handled statement by statement when enabled in development mode, and untouched otherwise |
| QueryInterceptor.OracleQueryInterceptor.RunBatch | src/main/java/bca/oraclelog/queryanalyzer/interceptor/OracleQueryInterceptor.java:69-78 | the loop's outputs are the fold of the handled statements |
| QueryInterceptor.OracleQueryInterceptor.Handle | src/main/java/bca/oraclelog/queryanalyzer/interceptor/OracleQueryInterceptor.java:72-76 | one statement's outputs are the handled ones, a thrown exception logged |
| QueryInterceptor.OracleQueryInterceptor.AnalyzeQuery | src/main/java/bca/oraclelog/queryanalyzer/interceptor/OracleQueryInterceptor.java:94-118 | `analyzeQuery` throws and changes the outputs as the statement's analysis describes |
| QueryInterceptor.OracleQueryInterceptor.ExplainAndPublish | src/main/java/bca/oraclelog/queryanalyzer/interceptor/OracleQueryInterceptor.java:100-117 | the try-with-resources block does the same once the connection is open |
| QueryInterceptor.OracleQueryInterceptor.Explain | src/main/java/bca/oraclelog/queryanalyzer/interceptor/OracleQueryInterceptor.java:101-105 | the plan is `ExplainPlanAnalyzer`'s, with the call stack attached when asked for, and the table is cleaned up |
| QueryInterceptor.OracleQueryInterceptor.Publish | src/main/java/bca/oraclelog/queryanalyzer/interceptor/OracleQueryInterceptor.java:107-116 | the formatter's text is published, or its exception thrown |
| QueryInterceptor.OracleQueryInterceptor.Emit | src/main/java/bca/oraclelog/queryanalyzer/interceptor/OracleQueryInterceptor.java:109-116 | the report is printed when logToConsole holds and logged when logToFile holds |
| DebugInterceptor.DefaultsInactive | src/main/java/bca/oraclelog/queryanalyzer/config/QueryDebugProperties.java:10-15 | the debug listener is off as constructed and on once enabled |
| DebugInterceptor.Reported | src/main/java/bca/oraclelog/queryanalyzer/interceptor/OracleQueryDebugInterceptor.java:104-124 | formatting and publishing leave `PLAN_TABLE` alone |
| DebugInterceptor.FormattedIgnoresRows | src/main/java/bca/oraclelog/queryanalyzer/interceptor/OracleQueryDebugInterceptor.java:114-124 | formatting and publishing do not depend on `PLAN_TABLE` |
| DebugInterceptor.ShownSummaryIdentifies | src/main/java/bca/oraclelog/queryanalyzer/interceptor/OracleQueryDebugInterceptor.java:102-112 | the summary handed to the formatter carries the drawn UUID, the query, the constructor's time and the elapsed time, and a call stack exactly when includeStackTrace holds |
| DebugInterceptor.IncludeQueryTextHasNoEffect | src/main/java/bca/oraclelog/queryanalyzer/interceptor/OracleQueryDebugInterceptor.java:105-107 | a statement is handled the same with includeQueryText on or off |
| DebugInterceptor.HandledOutcome | src/main/java/bca/oraclelog/queryanalyzer/interceptor/OracleQueryDebugInterceptor.java:73-125 | each analysable statement either publishes the formatter's report of a summary of that very statement, or adds exactly one debug entry and prints nothing |
| DebugInterceptor.HandledWithDebugFormatter | src/main/java/bca/oraclelog/queryanalyzer/interceptor/OracleQueryDebugInterceptor.java:101-125 | with `QueryDebugFormatter`, a summarised statement publishes exactly `formatQueryDebug` of its summary unless BYTES reaches 1024^5, when one IndexOutOfBounds is logged; the table loses the statement's rows |
| DebugInterceptor.HandledAppends | src/main/java/bca/oraclelog/queryanalyzer/interceptor/OracleQueryDebugInterceptor.java:73-77 | a statement only appends to the console and the log |
| DebugInterceptor.HandledWithoutDataSource | src/main/java/bca/oraclelog/queryanalyzer/interceptor/OracleQueryDebugInterceptor.java:96-99 | without a data source a statement only logs a debug message |
| DebugInterceptor.HandledWithoutAnalyzer | src/main/java/bca/oraclelog/queryanalyzer/interceptor/OracleQueryDebugInterceptor.java:101-102 | without the analyzer bean a statement only logs the exception |
| DebugInterceptor.HandledKeepsOtherRows | src/main/java/bca/oraclelog/queryanalyzer/interceptor/OracleQueryDebugInterceptor.java:101-102 | a statement touches `PLAN_TABLE` only under its summary's UUID |
| DebugInterceptor.HandledLeavesNoRows | src/main/java/bca/oraclelog/queryanalyzer/interceptor/OracleQueryDebugInterceptor.java:101-102 | unless DELETE fails, a statement leaves no new statement id behind |
| DebugInterceptor.NotedSteps | src/main/java/bca/oraclelog/queryanalyzer/interceptor/OracleQueryDebugInterceptor.java:76 | n identical debug messages append n entries |
| DebugInterceptor.BatchWithoutDataSource | src/main/java/bca/oraclelog/queryanalyzer/interceptor/OracleQueryDebugInterceptor.java:70-99 | without a data source a batch logs one message per analysable statement and nothing else |
| DebugInterceptor.BatchWithoutAnalyzer | src/main/java/bca/oraclelog/queryanalyzer/interceptor/OracleQueryDebugInterceptor.java:49-80 | when the properties loaded but the analyzer did not, every analysable statement logs the same exception and nothing is printed or explained |
| DebugInterceptor.BatchAppends | src/main/java/bca/oraclelog/queryanalyzer/interceptor/OracleQueryDebugInterceptor.java:70-79 | a batch only appends to the console and the log |
| DebugInterceptor.BatchTable | src/main/java/bca/oraclelog/queryanalyzer/interceptor/OracleQueryDebugInterceptor.java:70-79 | a batch keeps the rows of every id none of its summaries drew, and unless DELETE fails it leaves no new id |
| DebugInterceptor.OracleQueryDebugInterceptor.constructor | src/main/java/bca/oraclelog/queryanalyzer/interceptor/OracleQueryDebugInterceptor.java:35-42 | a new listener has its data source (or none), no context, no beans and empty outputs |
| DebugInterceptor.OracleQueryDebugInterceptor.SetApplicationContext | src/main/java/bca/oraclelog/queryanalyzer/interceptor/OracleQueryDebugInterceptor.java:45-47 | only the context changes |
| DebugInterceptor.OracleQueryDebugInterceptor.InitializeDependencies | src/main/java/bca/oraclelog/queryanalyzer/interceptor/OracleQueryDebugInterceptor.java:49-59 | the beans load in order up to the first one missing, only when the properties are not loaded yet and there is a context, and a failure logs one debug message |
| DebugInterceptor.OracleQueryDebugInterceptor.BeforeQuery | src/main/java/bca/oraclelog/queryanalyzer/interceptor/OracleQueryDebugInterceptor.java:62-80 | after initialisation, the outputs are the batch handled statement by statement when enabled, and untouched otherwise |
| DebugInterceptor.OracleQueryDebugInterceptor.RunBatch | src/main/java/bca/oraclelog/queryanalyzer/interceptor/OracleQueryDebugInterceptor.java:70-79 | the loop's outputs are the fold of the handled statements |
| DebugInterceptor.OracleQueryDebugInterceptor.Handle | src/main/java/bca/oraclelog/queryanalyzer/interceptor/OracleQueryDebugInterceptor.java:73-77 | one statement's outputs are the handled ones, a thrown exception logged |
| DebugInterceptor.OracleQueryDebugInterceptor.DebugQuery | src/main/java/bca/oraclelog/queryanalyzer/interceptor/OracleQueryDebugInterceptor.java:95-126 | `debugQuery` throws and changes the outputs as the statement's debugging describes |
| DebugInterceptor.OracleQueryDebugInterceptor.SummarizeAndPublish | src/main/java/bca/oraclelog/queryanalyzer/interceptor/OracleQueryDebugInterceptor.java:101-125 | the try-with-resources block does the same once the connection is open |
| DebugInterceptor.OracleQueryDebugInterceptor.Summarize | src/main/java/bca/oraclelog/queryanalyzer/interceptor/OracleQueryDebugInterceptor.java:102-112 | the summary is `OracleQueryAnalyzer`'s, with the query text and call stack set as the properties ask, and the table is cleaned up |
| DebugInterceptor.OracleQueryDebugInterceptor.Publish | src/main/java/bca/oraclelog/queryanalyzer/interceptor/OracleQueryDebugInterceptor.java:114-124 | the formatter's text is published, or its exception thrown |
| DebugInterceptor.OracleQueryDebugInterceptor.Emit | src/main/java/bca/oraclelog/queryanalyzer/interceptor/OracleQueryDebugInterceptor.java:117-124 | the report is printed when logToConsole holds and logged when logToFile holds |

## Left out

- JDBC itself is not modelled: connections, statements, result sets and their closing. `PLAN_TABLE` is a map, and each statement the source sends is one method of `PlanTables.PlanTable`. A failing statement raises a `SQLException` (`Fault.Sql`), as `failing` decides. A failure to close a resource is not modelled.
- The optimizer, `DBMS_XPLAN.DISPLAY`, the clocks, the UUID, the thread id, `LocalDateTime.now()` and the call stack are parameters. `StackTraceElement.toString()` is a frame's given text.
- Only ASCII case folding is modelled: `String.toUpperCase` changes only ASCII letters, and the case-insensitive keyword match is ASCII-only. So are `\b`, `\s` and `Character.digit`, which cover only ASCII word characters, whitespace and digits. The character count of a string stands for its UTF-16 length in `truncate`.
- Doubles are reals: costs, the I/O ratio and the byte scaling are exact. Binary rounding and `Math.log10` rounding at exact powers of 1024 are not modelled. Hexadecimal literals, `NaN` and `Infinity` are not accepted by the model's `Double.parseDouble`.
- The locale is not modelled: `%,d` groups digits with `,` and the decimal separator is `.`. `%n` is taken to be `"\n"`. Years above 9999 are not printed with their sign.
- `System.out` and the logger are lists. Log levels (warn, debug, info) are the entry's kind. `System.err` in `cleanupPlanTable` of `ExplainPlanAnalyzer` is not modelled.
- `afterQuery` of both listeners has an empty body and is not modelled.
- The listeners' statement lists hold non-null query strings. A null query would make `isAnalyzableQuery` throw outside the try block.
- `logFilePath` is read by neither listener and is not modelled.
- The Spring context is modelled as the beans it holds, as values. A missing bean stands for a `getBean` that throws. The formatter bean is any function from the plan (or summary) to a text or an exception; `QueryFormatter.Report` and `QueryDebugFormatter.DebugReport` are the formatters' own. The analyzer bean is modelled by its presence only.
- `QueryAnalyzerConfig` and the Spring application class are not part of this model.
- PlanTables.PlanRow: the `ID` column is never NULL and always fits an `int`, so `rs.getInt("ID")` (`src/main/java/bca/oraclelog/queryanalyzer/service/ExplainPlanAnalyzer.java:107`) is the stored value itself. `EXPLAIN PLAN` numbers a plan's steps 0, 1, 2, … and never leaves `ID` unset, and `ORDER BY ID` and `WHERE ID = 0` are modelled on that. The `0` that `getInt` returns for a NULL, and the `SQLException` for a value outside the `int` range, are not modelled.
- QueryFormatter.Truncate: requires a width of at least 3. The source calls it only with 25 and 20; a smaller width would make `substring` throw.
