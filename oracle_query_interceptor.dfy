/** OracleQueryInterceptor: the datasource-proxy listener that, before a
    batch of statements runs, explains every SELECT, INSERT, UPDATE or
    DELETE of it against PLAN_TABLE and prints and/or logs QueryFormatter's
    report. Its collaborators come lazily from the Spring context, and it
    only acts when enabled in "development" mode. The clocks, the thread id
    and the call stack seen while a statement is handled are parameters;
    System.out and the logger are lists the listener appends to. */
module QueryInterceptor {
  import opened Wrappers
  import opened Faults
  import opened DateTimes
  import opened PlanTables
  import opened ExecutionPlan
  import opened ExplainPlanAnalyzer
  import opened QueryFormatter
  import opened Listeners

  /** The QueryAnalyzerProperties the listener reads; `mode` is a String
      and may be null. */
  datatype Properties = Properties(enabled: bool, mode: Option<string>, logToConsole: bool,
                                   logToFile: bool, includeStackTrace: bool)

  /** QueryAnalyzerProperties as constructed. */
  const DefaultProperties := Properties(false, Some("development"), true, false, true)

  /** What a QueryFormatter bean's formatAnalysis makes of a plan at a
      given time. QueryFormatter's own is `Report`; the listener is modelled
      for whatever formatter bean the context holds. */
  type Formatter = (Plan, DateTime) -> Result<string, Fault>

  /** The beans this listener loads: QueryAnalyzerProperties,
      ExplainPlanAnalyzer and QueryFormatter. */
  type AnalysisSetup = Setup<Properties, Formatter>
  type AnalysisContext = Context<Properties, Formatter>

  /** The logger's entries: a report written with logger.info, and the
      three warnings. */
  datatype LogEntry = Info(text: string) | InitFailed | NoDataSource | AnalysisFailed(fault: Fault)

  /** What the listener sees while it handles one statement: the clock at
      the start of the analysis (t0), inside the statement id (t1) and in
      its finally block (t2), the thread id, the wall clock the report is
      stamped with, and the current thread's stack. */
  datatype Env = Env(t0: int, t1: int, threadId: int, t2: int, now: DateTime, frames: seq<Frame>)

  /** PLAN_TABLE's rows (none without a data source), the lines printed on
      System.out, and the log. */
  datatype World = World(rows: map<string, seq<PlanRow>>, console: seq<string>, log: seq<LogEntry>)

  /** getCurrentStackTrace looks at the frames below index 10 and drops
      the library's own. */
  const StackLimit: nat := 10
  const OwnClasses: seq<string> := ["queryanalyzer"]

  // ---------------------------------------------------------------------------
  // initializeDependencies and the gate of beforeQuery

  /** The warning initializeDependencies logs. */
  function InitLog(s: AnalysisSetup, context: Option<AnalysisContext>): seq<LogEntry> {
    if InitFails(s, context) then [InitFailed] else []
  }

  /** The gate of beforeQuery: properties loaded, enabled, and the mode
      exactly "development". */
  predicate Active(p: Option<Properties>) {
    p.Some? && p.value.enabled && p.value.mode == Some("development")
  }

  /** Properties as constructed keep the listener off: it must be enabled. */
  lemma DefaultsInactive()
    ensures !Active(Some(DefaultProperties))
    ensures Active(Some(DefaultProperties.(enabled := true)))
  {
  }

  // ---------------------------------------------------------------------------
  // analyzeQuery, and the batch

  /** The plan of a statement whose analysis got through with `steps`,
      the stack attached when the properties ask for it. */
  function AnalyzedPlan(p: Properties, query: string, steps: seq<Step>, e: Env): Plan {
    Plan(Some(query), Some(steps), MaxPositiveCost(steps), e.t2 - e.t0,
         if p.includeStackTrace then Some(StackText(e.frames, StackLimit, OwnClasses)) else None)
  }

  /** Where a report goes: System.out and/or logger.info. */
  function Published(p: Properties, w: World, text: string): World {
    w.(console := w.console + (if p.logToConsole then [text] else []),
       log := w.log + (if p.logToFile then [Info(text)] else []))
  }

  /** The formatting half of analyzeQuery: formatAnalysis of the
      statement's plan, then the report published. */
  function Formatted(s: AnalysisSetup, w: World, plan: Plan, now: DateTime): (Option<Fault>, World)
    requires s.properties.Some?
  {
    if s.formatter.None? then (Some(NullPointer), w)
    else
      match s.formatter.value(plan, now)
      case Failure(f) => (Some(f), w)
      case Success(text) => (None, Published(s.properties.value, w, text))
  }

  /** analyzeQuery: the exception it lets through, and the world after it.
      Without a data source it only warns; a failed getConnection or a
      missing analyzer throws before PLAN_TABLE is touched. */
  function Analyzed(ds: Option<PlanTable>, s: AnalysisSetup, w: World, query: string, e: Env)
    : (Option<Fault>, World)
    requires s.properties.Some?
  {
    if ds.None? then (None, w.(log := w.log + [NoDataSource]))
    else if DbOp.Connect in ds.value.failing then (Some(Sql(DbOp.Connect)), w)
    else if !s.analyzer then (Some(NullPointer), w)
    else
      var t := ds.value;
      var written := t.optimizer(query);
      var r := Reported(s, w, query, Analysis(t.failing, t.display, RowsOf(w.rows, IdOf(e)), written), e);
      (r.0, r.1.(rows := TableAfter(t.failing, w.rows, IdOf(e), written)))
  }

  /** How analyzeQuery ends once PLAN_TABLE has been read back: the
      exception of the analysis, or the report formatted and published.
      The table is left to Analyzed. */
  function Reported(s: AnalysisSetup, w: World, query: string, got: Result<seq<Step>, Fault>, e: Env)
    : (r: (Option<Fault>, World))
    requires s.properties.Some?
    ensures r.1.rows == w.rows
  {
    if got.Failure? then (Some(got.error), w)
    else Formatted(s, w, AnalyzedPlan(s.properties.value, query, got.value, e), e.now)
  }

  /** Formatting and publishing do not look at PLAN_TABLE. */
  lemma FormattedIgnoresRows(s: AnalysisSetup, w: World, rows: map<string, seq<PlanRow>>, plan: Plan, now: DateTime)
    requires s.properties.Some?
    ensures var r := Formatted(s, w, plan, now);
            Formatted(s, w.(rows := rows), plan, now) == (r.0, r.1.(rows := rows))
  {
  }

  /** One analyzable statement of beforeQuery's loop: an exception is
      caught and logged as a warning. */
  function Handled(ds: Option<PlanTable>, s: AnalysisSetup, w: World, query: string, e: Env): World
    requires s.properties.Some?
  {
    var (thrown, w') := Analyzed(ds, s, w, query, e);
    if thrown.Some? then Warned(AnalysisFailed(thrown.value))(w') else w'
  }

  /** Handled as the step of the batch loop (Listeners.Batch). */
  function Handler(ds: Option<PlanTable>, s: AnalysisSetup): (World, string, Env) -> World
    requires s.properties.Some?
  {
    (w, query, e) => Handled(ds, s, w, query, e)
  }

  /** A warning added to the log, and nothing else. */
  function Warned(entry: LogEntry): World -> World {
    (w: World) => w.(log := w.log + [entry])
  }

  /** The statement id a statement is explained under. */
  function IdOf(e: Env): string {
    StatementId(e.t1, e.threadId)
  }

  // ---------------------------------------------------------------------------
  // What handling one statement promises

  /** Each analyzable statement ends one way or the other: it leaves a
      report of a plan for that very statement on the outputs the
      properties name, or exactly one warning and no output. */
  lemma HandledOutcome(ds: Option<PlanTable>, s: AnalysisSetup, w: World, query: string, e: Env)
    requires s.properties.Some?
    ensures var w' := Handled(ds, s, w, query, e);
            || (exists steps: seq<Step> ::
                  && s.formatter.Some?
                  && var text := s.formatter.value(AnalyzedPlan(s.properties.value, query, steps, e), e.now);
                     && text.Success?
                     && w'.console == Published(s.properties.value, w, text.value).console
                     && w'.log == Published(s.properties.value, w, text.value).log)
            || (w'.console == w.console && |w'.log| == |w.log| + 1 && w'.log[..|w.log|] == w.log
                && (w'.log[|w.log|] == NoDataSource || w'.log[|w.log|].AnalysisFailed?))
  {
    if ds.Some? && DbOp.Connect !in ds.value.failing && s.analyzer {
      var t := ds.value;
      var got := Analysis(t.failing, t.display, RowsOf(w.rows, IdOf(e)), t.optimizer(query));
      if got.Success? && s.formatter.Some? {
        var text := s.formatter.value(AnalyzedPlan(s.properties.value, query, got.value, e), e.now);
        if text.Success? {
          assert Handled(ds, s, w, query, e).log == Published(s.properties.value, w, text.value).log;
        }
      }
    }
  }

  /** With QueryFormatter as the formatter bean, a statement whose steps
      were read back publishes exactly QueryFormatter's report of its plan,
      unless a step has no operation: then formatAnalysis throws a
      NullPointerException, which is logged. */
  lemma HandledWithQueryFormatter(t: PlanTable, s: AnalysisSetup, w: World, query: string, e: Env, steps: seq<Step>)
    requires s.properties.Some? && s.analyzer && s.formatter == Some(Report)
    requires DbOp.Connect !in t.failing
    requires Analysis(t.failing, t.display, RowsOf(w.rows, IdOf(e)), t.optimizer(query)) == Success(steps)
    ensures var plan := AnalyzedPlan(s.properties.value, query, steps, e);
            var w' := w.(rows := TableAfter(t.failing, w.rows, IdOf(e), t.optimizer(query)));
            if forall k :: 0 <= k < |steps| ==> steps[k].operation.Some?
            then Report(plan, e.now).Success?
                 && Handled(Some(t), s, w, query, e) == Published(s.properties.value, w', Report(plan, e.now).value)
            else Handled(Some(t), s, w, query, e) == Warned(AnalysisFailed(NullPointer))(w')
  {
    ReportSucceeds(AnalyzedPlan(s.properties.value, query, steps, e), e.now);
  }

  /** Handling one statement appends to the console and the log and never
      takes anything back. */
  lemma HandledAppends(ds: Option<PlanTable>, s: AnalysisSetup, w: World, query: string, e: Env)
    requires s.properties.Some?
    ensures var w' := Handled(ds, s, w, query, e);
            w.console <= w'.console && w.log <= w'.log
  {
    HandledOutcome(ds, s, w, query, e);
  }

  /** Without a data source a statement only leaves a warning. */
  lemma HandledWithoutDataSource(s: AnalysisSetup, w: World, query: string, e: Env)
    requires s.properties.Some?
    ensures Handled(None, s, w, query, e) == Warned(NoDataSource)(w)
  {
  }

  /** The exception a statement throws when the analyzer bean is missing:
      getConnection is tried first. */
  function NoAnalyzerFault(t: PlanTable): Fault {
    if DbOp.Connect in t.failing then Sql(DbOp.Connect) else NullPointer
  }

  /** Without the analyzer a statement only leaves a warning. */
  lemma HandledWithoutAnalyzer(t: PlanTable, s: AnalysisSetup, w: World, query: string, e: Env)
    requires s.properties.Some? && !s.analyzer
    ensures Handled(Some(t), s, w, query, e) == Warned(AnalysisFailed(NoAnalyzerFault(t)))(w)
  {
  }

  /** A statement touches PLAN_TABLE only under its own statement id. */
  lemma HandledKeepsOtherRows(ds: Option<PlanTable>, s: AnalysisSetup, w: World, query: string, e: Env, sid: string)
    requires s.properties.Some? && sid != IdOf(e)
    ensures RowsOf(Handled(ds, s, w, query, e).rows, sid) == RowsOf(w.rows, sid)
  {
    if ds.Some? && DbOp.Connect !in ds.value.failing && s.analyzer {
      TableAfterRows(ds.value.failing, w.rows, IdOf(e), ds.value.optimizer(query));
    }
  }

  /** Unless DELETE fails, a statement leaves no rows in PLAN_TABLE. */
  lemma HandledLeavesNoRows(t: PlanTable, s: AnalysisSetup, w: World, query: string, e: Env)
    requires s.properties.Some? && DbOp.Delete !in t.failing
    ensures Handled(Some(t), s, w, query, e).rows.Keys <= w.rows.Keys
  {
  }

  // ---------------------------------------------------------------------------
  // What a batch promises

  /** `entry` logged n times. */
  lemma {:induction false} WarnedSteps(w: World, entry: LogEntry, n: nat)
    ensures Steps(w, Warned(entry), n) == w.(log := w.log + seq(n, _ => entry))
  {
    if n > 0 {
      WarnedSteps(w, entry, n - 1);
      assert seq(n - 1, _ => entry) + [entry] == seq(n, _ => entry);
    }
  }

  /** Without a data source nothing is analyzed: each analyzable statement
      leaves one warning, and nothing else changes. */
  lemma BatchWithoutDataSource(s: AnalysisSetup, w: World, queries: seq<string>, env: nat -> Env)
    requires s.properties.Some?
    ensures Batch(w, queries, env, IsAnalyzableQuery, Handler(None, s))
            == w.(log := w.log + seq(Selected(queries, IsAnalyzableQuery), _ => NoDataSource))
  {
    forall k, v: World | 0 <= k < |queries|
      ensures Handler(None, s)(v, queries[k], env(k)) == Warned(NoDataSource)(v)
    {
      HandledWithoutDataSource(s, v, queries[k], env(k));
    }
    BatchRepeats(w, queries, env, IsAnalyzableQuery, Handler(None, s), Warned(NoDataSource));
    WarnedSteps(w, NoDataSource, Selected(queries, IsAnalyzableQuery));
  }

  /** When the properties loaded but the analyzer bean did not, loading is
      never retried: every analyzable statement fails the same way, leaves
      one warning, and nothing is ever printed or explained. */
  lemma BatchWithoutAnalyzer(t: PlanTable, s: AnalysisSetup, w: World, queries: seq<string>, env: nat -> Env)
    requires s.properties.Some? && !s.analyzer
    ensures Batch(w, queries, env, IsAnalyzableQuery, Handler(Some(t), s))
            == w.(log := w.log + seq(Selected(queries, IsAnalyzableQuery), _ => AnalysisFailed(NoAnalyzerFault(t))))
  {
    var entry := AnalysisFailed(NoAnalyzerFault(t));
    forall k, v: World | 0 <= k < |queries|
      ensures Handler(Some(t), s)(v, queries[k], env(k)) == Warned(entry)(v)
    {
      HandledWithoutAnalyzer(t, s, v, queries[k], env(k));
    }
    BatchRepeats(w, queries, env, IsAnalyzableQuery, Handler(Some(t), s), Warned(entry));
    WarnedSteps(w, entry, Selected(queries, IsAnalyzableQuery));
  }

  /** A batch only appends to the console and the log. */
  lemma BatchAppends(ds: Option<PlanTable>, s: AnalysisSetup, w: World, queries: seq<string>, env: nat -> Env)
    requires s.properties.Some?
    ensures var w' := Batch(w, queries, env, IsAnalyzableQuery, Handler(ds, s));
            w.console <= w'.console && w.log <= w'.log
  {
    var inv := (v: World) => w.console <= v.console && w.log <= v.log;
    forall k, v: World | 0 <= k < |queries| && inv(v)
      ensures inv(Handler(ds, s)(v, queries[k], env(k)))
    {
      HandledAppends(ds, s, v, queries[k], env(k));
    }
    BatchKeeps(w, queries, env, IsAnalyzableQuery, Handler(ds, s), inv);
  }

  /** PLAN_TABLE after a batch: the rows under a statement id none of its
      statements used are as they were, and unless DELETE fails the batch
      leaves no statement id behind that was not there before. */
  lemma BatchTable(ds: Option<PlanTable>, s: AnalysisSetup, w: World, queries: seq<string>, env: nat -> Env, sid: string)
    requires s.properties.Some?
    ensures var rows := Batch(w, queries, env, IsAnalyzableQuery, Handler(ds, s)).rows;
            && ((forall k :: 0 <= k < |queries| ==> IdOf(env(k)) != sid) ==> RowsOf(rows, sid) == RowsOf(w.rows, sid))
            && (ds.Some? && DbOp.Delete !in ds.value.failing ==> rows.Keys <= w.rows.Keys)
  {
    var h := Handler(ds, s);
    if forall k :: 0 <= k < |queries| ==> IdOf(env(k)) != sid {
      var same := (v: World) => RowsOf(v.rows, sid) == RowsOf(w.rows, sid);
      forall k, v: World | 0 <= k < |queries| && same(v)
        ensures same(h(v, queries[k], env(k)))
      {
        HandledKeepsOtherRows(ds, s, v, queries[k], env(k), sid);
      }
      BatchKeeps(w, queries, env, IsAnalyzableQuery, h, same);
    }
    if ds.Some? && DbOp.Delete !in ds.value.failing {
      var within := (v: World) => v.rows.Keys <= w.rows.Keys;
      forall k, v: World | 0 <= k < |queries| && within(v)
        ensures within(h(v, queries[k], env(k)))
      {
        HandledLeavesNoRows(ds.value, s, v, queries[k], env(k));
      }
      BatchKeeps(w, queries, env, IsAnalyzableQuery, h, within);
    }
  }

  // ---------------------------------------------------------------------------
  // The listener

  class OracleQueryInterceptor {
    /** The data source, which reaches PLAN_TABLE (null for the no-argument
        constructor). */
    const dataSource: Option<PlanTable>
    var applicationContext: Option<AnalysisContext>
    var properties: Option<Properties>
    /** Whether the explainPlanAnalyzer reference is set, and the
        queryFormatter bean (None while null). */
    var explainPlanAnalyzer: bool
    var queryFormatter: Option<Formatter>
    /** What was printed on System.out and written to the logger. */
    var console: seq<string>
    var log: seq<LogEntry>

    /** The objects the listener changes. */
    function Repr(): set<object> {
      {this} + (if dataSource.Some? then {dataSource.value} else {})
    }

    function Loaded(): AnalysisSetup
      reads this
    {
      Setup(properties, explainPlanAnalyzer, queryFormatter)
    }

    function Outputs(): World
      reads Repr()
    {
      World(if dataSource.Some? then dataSource.value.rows else map[], console, log)
    }

    constructor (dataSource: Option<PlanTable>)
      ensures this.dataSource == dataSource && applicationContext.None?
      ensures Loaded() == Setup(None, false, None) && console == [] && log == []
    {
      this.dataSource := dataSource;
      applicationContext := None;
      properties := None;
      explainPlanAnalyzer := false;
      queryFormatter := None;
      console := [];
      log := [];
    }

    /** setApplicationContext. */
    method SetApplicationContext(context: AnalysisContext)
      modifies this
      ensures applicationContext == Some(context)
      ensures Loaded() == old(Loaded()) && console == old(console) && log == old(log)
    {
      applicationContext := Some(context);
    }

    /** initializeDependencies. */
    method InitializeDependencies()
      modifies this
      ensures Loaded() == Initialized(old(Loaded()), applicationContext)
      ensures log == old(log) + InitLog(old(Loaded()), applicationContext)
      ensures applicationContext == old(applicationContext) && console == old(console)
    {
      if properties.None? && applicationContext.Some? {
        var context := applicationContext.value;
        if context.properties.None? {
          log := log + [InitFailed];
          return;
        }
        properties := context.properties;
        if !context.analyzer {
          log := log + [InitFailed];
          return;
        }
        explainPlanAnalyzer := true;
        if context.formatter.None? {
          log := log + [InitFailed];
          return;
        }
        queryFormatter := context.formatter;
      }
    }

    /** beforeQuery: load what is missing; unless the listener is active,
        stop there; otherwise handle the statements in order, each in its
        own try block. */
    method BeforeQuery(queries: seq<string>, env: nat -> Env)
      modifies Repr()
      ensures applicationContext == old(applicationContext)
      ensures Loaded() == Initialized(old(Loaded()), old(applicationContext))
      ensures var w0 := old(Outputs()).(log := old(log) + InitLog(old(Loaded()), old(applicationContext)));
              Outputs() == if Active(properties) then Batch(w0, queries, env, IsAnalyzableQuery, Handler(dataSource, Loaded()))
                           else w0
    {
      InitializeDependencies();
      if properties.None? || !properties.value.enabled || properties.value.mode != Some("development") {
        return;
      }
      RunBatch(queries, env);
    }

    /** beforeQuery's loop, once the listener is found active. */
    method RunBatch(queries: seq<string>, env: nat -> Env)
      requires properties.Some?
      modifies Repr()
      ensures Loaded() == old(Loaded()) && applicationContext == old(applicationContext)
      ensures Outputs() == Batch(old(Outputs()), queries, env, IsAnalyzableQuery, Handler(dataSource, Loaded()))
    {
      var i := 0;
      while i < |queries|
        invariant 0 <= i <= |queries|
        invariant Loaded() == old(Loaded()) && applicationContext == old(applicationContext)
        invariant Outputs() == Batch(old(Outputs()), queries[..i], env, IsAnalyzableQuery, Handler(dataSource, Loaded()))
      {
        BatchSnoc(old(Outputs()), queries, env, IsAnalyzableQuery, Handler(dataSource, Loaded()), i);
        if IsAnalyzableQuery(queries[i]) {
          Handle(queries[i], env(i));
        }
        i := i + 1;
      }
      assert queries[..|queries|] == queries;
    }

    /** The try block of beforeQuery's loop: analyzeQuery, and a warning
        for what it throws. */
    method Handle(query: string, e: Env)
      requires properties.Some?
      modifies Repr()
      ensures Loaded() == old(Loaded()) && applicationContext == old(applicationContext)
      ensures Outputs() == Handled(dataSource, Loaded(), old(Outputs()), query, e)
    {
      var thrown := AnalyzeQuery(query, e);
      if thrown.Some? {
        log := log + [AnalysisFailed(thrown.value)];
      }
    }

    /** analyzeQuery: `thrown` is the exception it lets through. */
    method AnalyzeQuery(query: string, e: Env) returns (thrown: Option<Fault>)
      requires properties.Some?
      modifies Repr()
      ensures Loaded() == old(Loaded()) && applicationContext == old(applicationContext)
      ensures (thrown, Outputs()) == Analyzed(dataSource, Loaded(), old(Outputs()), query, e)
    {
      if dataSource.None? {
        log := log + [NoDataSource];
        return None;
      }
      var table := dataSource.value;
      if DbOp.Connect in table.failing {
        return Some(Sql(DbOp.Connect));
      }
      if !explainPlanAnalyzer {
        return Some(NullPointer);
      }
      thrown := ExplainAndPublish(query, e);
    }

    /** The rest of analyzeQuery once a connection is open and the
        analyzer is set: explain, read the plan back, attach the stack when
        asked to, and publish the report. */
    method ExplainAndPublish(query: string, e: Env) returns (thrown: Option<Fault>)
      requires properties.Some? && dataSource.Some? && DbOp.Connect !in dataSource.value.failing
      requires explainPlanAnalyzer
      modifies Repr()
      ensures Loaded() == old(Loaded()) && applicationContext == old(applicationContext)
      ensures (thrown, Outputs()) == Analyzed(dataSource, Loaded(), old(Outputs()), query, e)
    {
      var plan, failed := Explain(query, e);
      if failed.Some? {
        return failed;
      }
      FormattedIgnoresRows(Loaded(), old(Outputs()), Outputs().rows, plan.View(), e.now);
      thrown := Publish(plan, e.now);
    }

    /** ExplainPlanAnalyzer.analyzeQuery, then the stack attached when the
        properties ask for it: the exception that ends the analysis, or the
        plan of the statement. */
    method Explain(query: string, e: Env) returns (plan: QueryExecutionPlan, failed: Option<Fault>)
      requires properties.Some? && dataSource.Some?
      modifies Repr()
      ensures fresh(plan)
      ensures Loaded() == old(Loaded()) && applicationContext == old(applicationContext)
      ensures var t := dataSource.value;
              var got := Analysis(t.failing, t.display, RowsOf(old(Outputs()).rows, IdOf(e)), t.optimizer(query));
              && Outputs() == old(Outputs()).(rows := TableAfter(t.failing, old(Outputs()).rows, IdOf(e), t.optimizer(query)))
              && failed == (if got.Failure? then Some(got.error) else None)
              && (got.Success? ==> plan.View() == AnalyzedPlan(properties.value, query, got.value, e))
    {
      var table := dataSource.value;
      ghost var sid;
      plan, failed, sid := ExplainPlanAnalyzer.AnalyzeQuery(table, query, e.t0, e.t1, e.threadId, e.t2);
      if failed.None? && properties.value.includeStackTrace {
        var trace := CurrentStackTrace(e.frames, StackLimit, OwnClasses);
        plan.SetStackTrace(Some(trace));
      }
    }

    /** The end of analyzeQuery: format the plan, then print and/or log it. */
    method Publish(plan: QueryExecutionPlan, now: DateTime) returns (thrown: Option<Fault>)
      requires properties.Some?
      modifies this
      ensures Loaded() == old(Loaded()) && applicationContext == old(applicationContext)
      ensures var (f, w) := Formatted(Loaded(), old(Outputs()), old(plan.View()), now);
              thrown == f && console == w.console && log == w.log
    {
      if queryFormatter.None? {
        return Some(NullPointer);
      }
      var formatted := queryFormatter.value(plan.View(), now);
      if formatted.Failure? {
        return Some(formatted.error);
      }
      Emit(formatted.value);
      thrown := None;
    }

    /** System.out.println and/or logger.info of a report. */
    method Emit(text: string)
      requires properties.Some?
      modifies this
      ensures Loaded() == old(Loaded()) && applicationContext == old(applicationContext)
      ensures var w := Published(properties.value, old(Outputs()), text);
              console == w.console && log == w.log
    {
      if properties.value.logToConsole {
        console := console + [text];
      }
      if properties.value.logToFile {
        log := log + [Info(text)];
      }
    }
  }
}
