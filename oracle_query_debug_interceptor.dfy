/** OracleQueryDebugInterceptor: the datasource-proxy listener that, before
    a batch of statements runs, has OracleQueryAnalyzer summarise every
    SELECT, INSERT, UPDATE or DELETE of it and prints and/or logs
    QueryDebugFormatter's debug report. Its collaborators come lazily from
    the Spring context, and it only acts when enabled. Everything that goes
    wrong is logged at debug level and swallowed. The UUID and clocks of the
    summary and the call stack seen while a statement is handled are
    parameters; System.out and the logger are lists the listener appends
    to. */
module DebugInterceptor {
  import opened Wrappers
  import opened Faults
  import opened DateTimes
  import opened PlanTables
  import opened ExecutionSummary
  import opened ExplainPlanAnalyzer
  import opened OracleQueryAnalyzer
  import opened QueryDebugFormatter
  import opened Listeners

  /** The QueryDebugProperties the listener reads. */
  datatype Properties = Properties(enabled: bool, logToConsole: bool, logToFile: bool,
                                   includeStackTrace: bool, includeQueryText: bool)

  /** QueryDebugProperties as constructed. */
  const DefaultProperties := Properties(false, true, false, false, true)

  /** What a QueryDebugFormatter bean's formatQueryDebug makes of a
      summary. QueryDebugFormatter's own is `DebugReport`; the listener is
      modelled for whatever formatter bean the context holds. */
  type DebugFormatter = Summary -> Result<string, Fault>

  /** The beans this listener loads: QueryDebugProperties,
      OracleQueryAnalyzer and QueryDebugFormatter. */
  type DebugSetup = Setup<Properties, DebugFormatter>
  type DebugContext = Context<Properties, DebugFormatter>

  /** The logger's entries: a report written with logger.info, and the
      three logger.debug messages. */
  datatype LogEntry = Info(text: string) | InitFailed | NoDataSource | DebugFailed(fault: Fault)

  /** What the listener sees while it handles one statement: the UUID and
      the time the summary's constructor draws, the clock at the start of
      the analysis (t0) and in its finally block (t2), and the current
      thread's stack. */
  datatype Env = Env(uuid: string, now: DateTime, t0: int, t2: int, frames: seq<Frame>)

  /** PLAN_TABLE's rows (none without a data source), the lines printed on
      System.out, and the log. */
  datatype World = World(rows: map<string, seq<PlanRow>>, console: seq<string>, log: seq<LogEntry>)

  /** getCurrentStackTrace looks at the frames below index 8 and drops the
      library's, the proxy's, Spring JDBC's and the connection pool's. */
  const StackLimit: nat := 8
  const FrameworkClasses: seq<string> := ["queryanalyzer", "dsproxy", "springframework.jdbc", "hikari"]

  // ---------------------------------------------------------------------------
  // initializeDependencies and the gate of beforeQuery

  /** The debug message initializeDependencies logs. */
  function InitLog(s: DebugSetup, context: Option<DebugContext>): seq<LogEntry> {
    if InitFails(s, context) then [InitFailed] else []
  }

  /** The gate of beforeQuery: properties loaded and enabled; unlike the
      analysis listener there is no mode. */
  predicate Active(p: Option<Properties>) {
    p.Some? && p.value.enabled
  }

  /** Properties as constructed keep the listener off: it must be enabled. */
  lemma DefaultsInactive()
    ensures !Active(Some(DefaultProperties))
    ensures Active(Some(DefaultProperties.(enabled := true)))
  {
  }

  // ---------------------------------------------------------------------------
  // debugQuery, and the batch

  /** The summary handed to the formatter: analyzeQuery's, with the query
      text set again when the properties ask for it and the stack attached
      when they ask for that. */
  function ShownSummary(p: Properties, query: string, summary: Summary, e: Env): Summary {
    var withText := if p.includeQueryText then summary.(originalQuery := Some(query)) else summary;
    if p.includeStackTrace then withText.(stackTrace := Some(StackText(e.frames, StackLimit, FrameworkClasses)))
    else withText
  }

  /** Where a report goes: System.out and/or logger.info. */
  function Published(p: Properties, w: World, text: string): World {
    w.(console := w.console + (if p.logToConsole then [text] else []),
       log := w.log + (if p.logToFile then [Info(text)] else []))
  }

  /** The formatting half of debugQuery: formatQueryDebug of the summary,
      then the report published. */
  function Formatted(s: DebugSetup, w: World, summary: Summary): (Option<Fault>, World)
    requires s.properties.Some?
  {
    if s.formatter.None? then (Some(NullPointer), w)
    else
      match s.formatter.value(summary)
      case Failure(f) => (Some(f), w)
      case Success(text) => (None, Published(s.properties.value, w, text))
  }

  /** debugQuery: the exception it lets through, and the world after it.
      Without a data source it only logs; a failed getConnection throws, and
      so does a missing analyzer, once the connection is open. */
  function Debugged(ds: Option<PlanTable>, s: DebugSetup, w: World, query: string, e: Env)
    : (Option<Fault>, World)
    requires s.properties.Some?
  {
    if ds.None? then (None, w.(log := w.log + [NoDataSource]))
    else if DbOp.Connect in ds.value.failing then (Some(Sql(DbOp.Connect)), w)
    else if !s.analyzer then (Some(NullPointer), w)
    else
      var t := ds.value;
      var written := t.optimizer(query);
      var r := Reported(s, w, query, Summarized(t, w.rows, query, e), e);
      (r.0, r.1.(rows := TableAfter(t.failing, w.rows, e.uuid, written)))
  }

  /** What OracleQueryAnalyzer.analyzeQuery ends with for the statement. */
  function Summarized(t: PlanTable, rows: map<string, seq<PlanRow>>, query: string, e: Env): (Option<Fault>, Summary) {
    SummaryOutcome(t.failing, e.uuid, e.now, query, RowsOf(rows, e.uuid), t.optimizer(query), e.t2 - e.t0)
  }

  /** How debugQuery ends once analyzeQuery has returned or thrown. The
      table is left to Debugged. */
  function Reported(s: DebugSetup, w: World, query: string, outcome: (Option<Fault>, Summary), e: Env)
    : (r: (Option<Fault>, World))
    requires s.properties.Some?
    ensures r.1.rows == w.rows
  {
    if outcome.0.Some? then (outcome.0, w)
    else Formatted(s, w, ShownSummary(s.properties.value, query, outcome.1, e))
  }

  /** Formatting and publishing do not look at PLAN_TABLE. */
  lemma FormattedIgnoresRows(s: DebugSetup, w: World, rows: map<string, seq<PlanRow>>, summary: Summary)
    requires s.properties.Some?
    ensures var r := Formatted(s, w, summary);
            Formatted(s, w.(rows := rows), summary) == (r.0, r.1.(rows := rows))
  {
  }

  /** One analyzable statement of beforeQuery's loop: an exception is
      caught and logged at debug level. */
  function Handled(ds: Option<PlanTable>, s: DebugSetup, w: World, query: string, e: Env): World
    requires s.properties.Some?
  {
    var (thrown, w') := Debugged(ds, s, w, query, e);
    if thrown.Some? then Noted(DebugFailed(thrown.value))(w') else w'
  }

  /** Handled as the step of the batch loop (Listeners.Batch). */
  function Handler(ds: Option<PlanTable>, s: DebugSetup): (World, string, Env) -> World
    requires s.properties.Some?
  {
    (w, query, e) => Handled(ds, s, w, query, e)
  }

  /** A debug message added to the log, and nothing else. */
  function Noted(entry: LogEntry): World -> World {
    (w: World) => w.(log := w.log + [entry])
  }

  // ---------------------------------------------------------------------------
  // What handling one statement promises

  /** The summary the formatter is given belongs to the statement: its
      UUID, stamped with the constructor's time, and always with the query
      text, since analyzeQuery sets it itself. */
  lemma ShownSummaryIdentifies(t: PlanTable, p: Properties, rows: map<string, seq<PlanRow>>, query: string, e: Env)
    ensures var (thrown, summary) := Summarized(t, rows, query, e);
            var shown := ShownSummary(p, query, summary, e);
            && shown.statementId == Some(e.uuid)
            && shown.originalQuery == Some(query)
            && shown.timestamp == Some(e.now)
            && shown.analysisTimeMs == e.t2 - e.t0
            && (shown.stackTrace.Some? <==> p.includeStackTrace)
  {
    var written := t.optimizer(query);
    var base := Summary(Some(e.uuid), Some(query), 0.0, 0, 0, 0.0, 0.0, 0, e.t2 - e.t0, Some(e.now), None);
    WithParentKeepsIdentity(base, FirstWithId(RowsOf(rows, e.uuid) + written, 0));
  }

  /** includeQueryText has no effect: the listener behaves the same with
      it on or off, because the summary already holds the query. */
  lemma IncludeQueryTextHasNoEffect(ds: Option<PlanTable>, s: DebugSetup, w: World, query: string, e: Env)
    requires s.properties.Some?
    ensures var p := s.properties.value;
            Handled(ds, s.(properties := Some(p.(includeQueryText := true))), w, query, e)
            == Handled(ds, s.(properties := Some(p.(includeQueryText := false))), w, query, e)
  {
    if ds.Some? {
      var p := s.properties.value;
      var summary := Summarized(ds.value, w.rows, query, e).1;
      ShownSummaryIdentifies(ds.value, p, w.rows, query, e);
      assert ShownSummary(p.(includeQueryText := true), query, summary, e)
             == ShownSummary(p.(includeQueryText := false), query, summary, e);
    }
  }

  /** Each analyzable statement ends one way or the other: it leaves a
      report of a summary of that very statement on the outputs the
      properties name, or exactly one debug message and no output. */
  lemma HandledOutcome(ds: Option<PlanTable>, s: DebugSetup, w: World, query: string, e: Env)
    requires s.properties.Some?
    ensures var w' := Handled(ds, s, w, query, e);
            || (exists summary: Summary ::
                  && summary.statementId == Some(e.uuid) && summary.originalQuery == Some(query)
                  && s.formatter.Some?
                  && var text := s.formatter.value(summary);
                     && text.Success?
                     && w'.console == Published(s.properties.value, w, text.value).console
                     && w'.log == Published(s.properties.value, w, text.value).log)
            || (w'.console == w.console && |w'.log| == |w.log| + 1 && w'.log[..|w.log|] == w.log
                && (w'.log[|w.log|] == NoDataSource || w'.log[|w.log|].DebugFailed?))
  {
    if ds.Some? && DbOp.Connect !in ds.value.failing && s.analyzer {
      var t := ds.value;
      var (thrown, summary) := Summarized(t, w.rows, query, e);
      ShownSummaryIdentifies(t, s.properties.value, w.rows, query, e);
      if thrown.None? && s.formatter.Some? {
        var shown := ShownSummary(s.properties.value, query, summary, e);
        var text := s.formatter.value(shown);
        if text.Success? {
          assert Handled(ds, s, w, query, e).log == Published(s.properties.value, w, text.value).log;
        }
      }
    }
  }

  /** With QueryDebugFormatter as the formatter bean, a statement that was
      summarised publishes exactly QueryDebugFormatter's report of its
      summary, unless the root row's BYTES reach 1024^5: then
      formatQueryDebug throws an IndexOutOfBoundsException, which is
      logged. */
  lemma HandledWithDebugFormatter(t: PlanTable, s: DebugSetup, w: World, query: string, e: Env, summary: Summary)
    requires s.properties.Some? && s.analyzer && s.formatter == Some(DebugReport)
    requires DbOp.Connect !in t.failing
    requires Summarized(t, w.rows, query, e) == (None, summary)
    ensures var shown := ShownSummary(s.properties.value, query, summary, e);
            var w' := w.(rows := TableAfter(t.failing, w.rows, e.uuid, t.optimizer(query)));
            if summary.bytes < Pow1024(5)
            then DebugReport(shown).Success?
                 && Handled(Some(t), s, w, query, e) == Published(s.properties.value, w', DebugReport(shown).value)
            else Handled(Some(t), s, w, query, e) == Noted(DebugFailed(IndexOutOfBounds))(w')
  {
    var shown := ShownSummary(s.properties.value, query, summary, e);
    ShownSummaryIdentifies(t, s.properties.value, w.rows, query, e);
    DebugReportSucceeds(shown);
  }

  /** Handling one statement appends to the console and the log and never
      takes anything back. */
  lemma HandledAppends(ds: Option<PlanTable>, s: DebugSetup, w: World, query: string, e: Env)
    requires s.properties.Some?
    ensures var w' := Handled(ds, s, w, query, e);
            w.console <= w'.console && w.log <= w'.log
  {
    HandledOutcome(ds, s, w, query, e);
  }

  /** Without a data source a statement only leaves a debug message. */
  lemma HandledWithoutDataSource(s: DebugSetup, w: World, query: string, e: Env)
    requires s.properties.Some?
    ensures Handled(None, s, w, query, e) == Noted(NoDataSource)(w)
  {
  }

  /** The exception a statement throws when the analyzer bean is missing:
      getConnection is tried first. */
  function NoAnalyzerFault(t: PlanTable): Fault {
    if DbOp.Connect in t.failing then Sql(DbOp.Connect) else NullPointer
  }

  /** Without the analyzer a statement only leaves a debug message. */
  lemma HandledWithoutAnalyzer(t: PlanTable, s: DebugSetup, w: World, query: string, e: Env)
    requires s.properties.Some? && !s.analyzer
    ensures Handled(Some(t), s, w, query, e) == Noted(DebugFailed(NoAnalyzerFault(t)))(w)
  {
  }

  /** A statement touches PLAN_TABLE only under its own UUID. */
  lemma HandledKeepsOtherRows(ds: Option<PlanTable>, s: DebugSetup, w: World, query: string, e: Env, sid: string)
    requires s.properties.Some? && sid != e.uuid
    ensures RowsOf(Handled(ds, s, w, query, e).rows, sid) == RowsOf(w.rows, sid)
  {
    if ds.Some? && DbOp.Connect !in ds.value.failing && s.analyzer {
      TableAfterRows(ds.value.failing, w.rows, e.uuid, ds.value.optimizer(query));
    }
  }

  /** Unless DELETE fails, a statement leaves no rows in PLAN_TABLE. */
  lemma HandledLeavesNoRows(t: PlanTable, s: DebugSetup, w: World, query: string, e: Env)
    requires s.properties.Some? && DbOp.Delete !in t.failing
    ensures Handled(Some(t), s, w, query, e).rows.Keys <= w.rows.Keys
  {
  }

  // ---------------------------------------------------------------------------
  // What a batch promises

  /** `entry` logged n times. */
  lemma {:induction false} NotedSteps(w: World, entry: LogEntry, n: nat)
    ensures Steps(w, Noted(entry), n) == w.(log := w.log + seq(n, _ => entry))
  {
    if n > 0 {
      NotedSteps(w, entry, n - 1);
      assert seq(n - 1, _ => entry) + [entry] == seq(n, _ => entry);
    }
  }

  /** Without a data source nothing is analyzed: each analyzable statement
      leaves one debug message, and nothing else changes. */
  lemma BatchWithoutDataSource(s: DebugSetup, w: World, queries: seq<string>, env: nat -> Env)
    requires s.properties.Some?
    ensures Batch(w, queries, env, IsAnalyzableQuery, Handler(None, s))
            == w.(log := w.log + seq(Selected(queries, IsAnalyzableQuery), _ => NoDataSource))
  {
    forall k, v: World | 0 <= k < |queries|
      ensures Handler(None, s)(v, queries[k], env(k)) == Noted(NoDataSource)(v)
    {
      HandledWithoutDataSource(s, v, queries[k], env(k));
    }
    BatchRepeats(w, queries, env, IsAnalyzableQuery, Handler(None, s), Noted(NoDataSource));
    NotedSteps(w, NoDataSource, Selected(queries, IsAnalyzableQuery));
  }

  /** When the properties loaded but the analyzer bean did not, loading is
      never retried: every analyzable statement fails the same way, leaves
      one debug message, and nothing is ever printed or explained. */
  lemma BatchWithoutAnalyzer(t: PlanTable, s: DebugSetup, w: World, queries: seq<string>, env: nat -> Env)
    requires s.properties.Some? && !s.analyzer
    ensures Batch(w, queries, env, IsAnalyzableQuery, Handler(Some(t), s))
            == w.(log := w.log + seq(Selected(queries, IsAnalyzableQuery), _ => DebugFailed(NoAnalyzerFault(t))))
  {
    var entry := DebugFailed(NoAnalyzerFault(t));
    forall k, v: World | 0 <= k < |queries|
      ensures Handler(Some(t), s)(v, queries[k], env(k)) == Noted(entry)(v)
    {
      HandledWithoutAnalyzer(t, s, v, queries[k], env(k));
    }
    BatchRepeats(w, queries, env, IsAnalyzableQuery, Handler(Some(t), s), Noted(entry));
    NotedSteps(w, entry, Selected(queries, IsAnalyzableQuery));
  }

  /** A batch only appends to the console and the log. */
  lemma BatchAppends(ds: Option<PlanTable>, s: DebugSetup, w: World, queries: seq<string>, env: nat -> Env)
    requires s.properties.Some?
    ensures var w' := Batch(w, queries, env, IsAnalyzableQuery, Handler(ds, s));
            w.console <= w'.console && w.log <= w'.log
  {
    var inv := (v: World) => w.console <= v.console && w.log <= v.log;
    forall k, v: World | 0 <= k < |queries| && inv(v)
      ensures inv(Handler(ds, s)(v, queries[k], env(k)))
    {
      HandledAppends(ds, s, v, queries[k], env(k));
    }
    BatchKeeps(w, queries, env, IsAnalyzableQuery, Handler(ds, s), inv);
  }

  /** PLAN_TABLE after a batch: the rows under a statement id none of its
      summaries drew are as they were, and unless DELETE fails the batch
      leaves no statement id behind that was not there before. */
  lemma BatchTable(ds: Option<PlanTable>, s: DebugSetup, w: World, queries: seq<string>, env: nat -> Env, sid: string)
    requires s.properties.Some?
    ensures var rows := Batch(w, queries, env, IsAnalyzableQuery, Handler(ds, s)).rows;
            && ((forall k :: 0 <= k < |queries| ==> env(k).uuid != sid) ==> RowsOf(rows, sid) == RowsOf(w.rows, sid))
            && (ds.Some? && DbOp.Delete !in ds.value.failing ==> rows.Keys <= w.rows.Keys)
  {
    var h := Handler(ds, s);
    if forall k :: 0 <= k < |queries| ==> env(k).uuid != sid {
      var same := (v: World) => RowsOf(v.rows, sid) == RowsOf(w.rows, sid);
      forall k, v: World | 0 <= k < |queries| && same(v)
        ensures same(h(v, queries[k], env(k)))
      {
        HandledKeepsOtherRows(ds, s, v, queries[k], env(k), sid);
      }
      BatchKeeps(w, queries, env, IsAnalyzableQuery, h, same);
    }
    if ds.Some? && DbOp.Delete !in ds.value.failing {
      var within := (v: World) => v.rows.Keys <= w.rows.Keys;
      forall k, v: World | 0 <= k < |queries| && within(v)
        ensures within(h(v, queries[k], env(k)))
      {
        HandledLeavesNoRows(ds.value, s, v, queries[k], env(k));
      }
      BatchKeeps(w, queries, env, IsAnalyzableQuery, h, within);
    }
  }

  // ---------------------------------------------------------------------------
  // The listener

  class OracleQueryDebugInterceptor {
    /** The data source, which reaches PLAN_TABLE (null for the no-argument
        constructor). */
    const dataSource: Option<PlanTable>
    var applicationContext: Option<DebugContext>
    var properties: Option<Properties>
    /** Whether the queryAnalyzer reference is set, and the formatter bean
        (None while null). */
    var queryAnalyzer: bool
    var formatter: Option<DebugFormatter>
    /** What was printed on System.out and written to the logger. */
    var console: seq<string>
    var log: seq<LogEntry>

    /** The objects the listener changes. */
    function Repr(): set<object> {
      {this} + (if dataSource.Some? then {dataSource.value} else {})
    }

    function Loaded(): DebugSetup
      reads this
    {
      Setup(properties, queryAnalyzer, formatter)
    }

    function Outputs(): World
      reads Repr()
    {
      World(if dataSource.Some? then dataSource.value.rows else map[], console, log)
    }

    constructor (dataSource: Option<PlanTable>)
      ensures this.dataSource == dataSource && applicationContext.None?
      ensures Loaded() == Setup(None, false, None) && console == [] && log == []
    {
      this.dataSource := dataSource;
      applicationContext := None;
      properties := None;
      queryAnalyzer := false;
      formatter := None;
      console := [];
      log := [];
    }

    /** setApplicationContext. */
    method SetApplicationContext(context: DebugContext)
      modifies this
      ensures applicationContext == Some(context)
      ensures Loaded() == old(Loaded()) && console == old(console) && log == old(log)
    {
      applicationContext := Some(context);
    }

    /** initializeDependencies. */
    method InitializeDependencies()
      modifies this
      ensures Loaded() == Initialized(old(Loaded()), applicationContext)
      ensures log == old(log) + InitLog(old(Loaded()), applicationContext)
      ensures applicationContext == old(applicationContext) && console == old(console)
    {
      if properties.None? && applicationContext.Some? {
        var context := applicationContext.value;
        if context.properties.None? {
          log := log + [InitFailed];
          return;
        }
        properties := context.properties;
        if !context.analyzer {
          log := log + [InitFailed];
          return;
        }
        queryAnalyzer := true;
        if context.formatter.None? {
          log := log + [InitFailed];
          return;
        }
        formatter := context.formatter;
      }
    }

    /** beforeQuery: load what is missing; unless debugging is enabled,
        stop there; otherwise handle the statements in order, each in its
        own try block. */
    method BeforeQuery(queries: seq<string>, env: nat -> Env)
      modifies Repr()
      ensures applicationContext == old(applicationContext)
      ensures Loaded() == Initialized(old(Loaded()), old(applicationContext))
      ensures var w0 := old(Outputs()).(log := old(log) + InitLog(old(Loaded()), old(applicationContext)));
              Outputs() == if Active(properties) then Batch(w0, queries, env, IsAnalyzableQuery, Handler(dataSource, Loaded()))
                           else w0
    {
      InitializeDependencies();
      if properties.None? || !properties.value.enabled {
        return;
      }
      RunBatch(queries, env);
    }

    /** beforeQuery's loop, once debugging is found enabled. */
    method RunBatch(queries: seq<string>, env: nat -> Env)
      requires properties.Some?
      modifies Repr()
      ensures Loaded() == old(Loaded()) && applicationContext == old(applicationContext)
      ensures Outputs() == Batch(old(Outputs()), queries, env, IsAnalyzableQuery, Handler(dataSource, Loaded()))
    {
      var i := 0;
      while i < |queries|
        invariant 0 <= i <= |queries|
        invariant Loaded() == old(Loaded()) && applicationContext == old(applicationContext)
        invariant Outputs() == Batch(old(Outputs()), queries[..i], env, IsAnalyzableQuery, Handler(dataSource, Loaded()))
      {
        BatchSnoc(old(Outputs()), queries, env, IsAnalyzableQuery, Handler(dataSource, Loaded()), i);
        if IsAnalyzableQuery(queries[i]) {
          Handle(queries[i], env(i));
        }
        i := i + 1;
      }
      assert queries[..|queries|] == queries;
    }

    /** The try block of beforeQuery's loop: debugQuery, and a debug
        message for what it throws. */
    method Handle(query: string, e: Env)
      requires properties.Some?
      modifies Repr()
      ensures Loaded() == old(Loaded()) && applicationContext == old(applicationContext)
      ensures Outputs() == Handled(dataSource, Loaded(), old(Outputs()), query, e)
    {
      var thrown := DebugQuery(query, e);
      if thrown.Some? {
        log := log + [DebugFailed(thrown.value)];
      }
    }

    /** debugQuery: `thrown` is the exception it lets through. */
    method DebugQuery(query: string, e: Env) returns (thrown: Option<Fault>)
      requires properties.Some?
      modifies Repr()
      ensures Loaded() == old(Loaded()) && applicationContext == old(applicationContext)
      ensures (thrown, Outputs()) == Debugged(dataSource, Loaded(), old(Outputs()), query, e)
    {
      if dataSource.None? {
        log := log + [NoDataSource];
        return None;
      }
      var table := dataSource.value;
      if DbOp.Connect in table.failing {
        return Some(Sql(DbOp.Connect));
      }
      if !queryAnalyzer {
        return Some(NullPointer);
      }
      thrown := SummarizeAndPublish(query, e);
    }

    /** The body of the try-with-resources block once the connection is
        open and the analyzer is set. */
    method SummarizeAndPublish(query: string, e: Env) returns (thrown: Option<Fault>)
      requires properties.Some? && dataSource.Some? && DbOp.Connect !in dataSource.value.failing
      requires queryAnalyzer
      modifies Repr()
      ensures Loaded() == old(Loaded()) && applicationContext == old(applicationContext)
      ensures (thrown, Outputs()) == Debugged(dataSource, Loaded(), old(Outputs()), query, e)
    {
      var summary, failed := Summarize(query, e);
      if failed.Some? {
        return failed;
      }
      FormattedIgnoresRows(Loaded(), old(Outputs()), Outputs().rows, summary.View());
      thrown := Publish(summary);
    }

    /** OracleQueryAnalyzer.analyzeQuery, then the query text and the stack
        set when the properties ask for them: the exception that ends the
        analysis, or the summary of the statement. */
    method Summarize(query: string, e: Env) returns (summary: QueryExecutionSummary, failed: Option<Fault>)
      requires properties.Some? && dataSource.Some?
      modifies Repr()
      ensures fresh(summary)
      ensures Loaded() == old(Loaded()) && applicationContext == old(applicationContext)
      ensures var t := dataSource.value;
              var outcome := Summarized(t, old(Outputs()).rows, query, e);
              && Outputs() == old(Outputs()).(rows := TableAfter(t.failing, old(Outputs()).rows, e.uuid, t.optimizer(query)))
              && failed == outcome.0
              && (failed.None? ==> summary.View() == ShownSummary(properties.value, query, outcome.1, e))
    {
      var table := dataSource.value;
      summary, failed := OracleQueryAnalyzer.AnalyzeQuery(table, query, e.uuid, e.now, e.t0, e.t2);
      if failed.None? {
        if properties.value.includeQueryText {
          summary.SetOriginalQuery(Some(query));
        }
        if properties.value.includeStackTrace {
          var trace := CurrentStackTrace(e.frames, StackLimit, FrameworkClasses);
          summary.SetStackTrace(Some(trace));
        }
      }
    }

    /** The end of debugQuery: format the summary, then print and/or log
        it. */
    method Publish(summary: QueryExecutionSummary) returns (thrown: Option<Fault>)
      requires properties.Some?
      modifies this
      ensures Loaded() == old(Loaded()) && applicationContext == old(applicationContext)
      ensures var (f, w) := Formatted(Loaded(), old(Outputs()), old(summary.View()));
              thrown == f && console == w.console && log == w.log
    {
      if formatter.None? {
        return Some(NullPointer);
      }
      var formatted := formatter.value(summary.View());
      if formatted.Failure? {
        return Some(formatted.error);
      }
      Emit(formatted.value);
      thrown := None;
    }

    /** System.out.println and/or logger.info of a report. */
    method Emit(text: string)
      requires properties.Some?
      modifies this
      ensures Loaded() == old(Loaded()) && applicationContext == old(applicationContext)
      ensures var w := Published(properties.value, old(Outputs()), text);
              console == w.console && log == w.log
    {
      if properties.value.logToConsole {
        console := console + [text];
      }
      if properties.value.logToFile {
        log := log + [Info(text)];
      }
    }
  }
}
