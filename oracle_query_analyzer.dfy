/** OracleQueryAnalyzer: EXPLAIN PLAN under the summary's own statement id
    (a random UUID), the figures of the plan's root operation (ID = 0) read
    into a QueryExecutionSummary, and the clean-up of PLAN_TABLE. The UUID
    and the clock are parameters. */
module OracleQueryAnalyzer {
  import opened Wrappers
  import opened Faults
  import opened JavaNumbers
  import opened DateTimes
  import opened PlanTables
  import opened ExecutionSummary
  import opened ExplainPlanAnalyzer

  /** The figures retrieveParentPlanDetails copies from the root row: each
      NULL column reads as 0, the integral ones through longValue(); with
      no root row nothing changes. */
  function WithParent(s: Summary, parent: Option<PlanRow>): Summary {
    match parent
    case None => s
    case Some(p) =>
      s.(cost := p.cost.GetOr(0.0),
         cardinality := LongValue(p.cardinality.GetOr(0)),
         bytes := LongValue(p.bytes.GetOr(0)),
         cpuCost := p.cpuCost.GetOr(0.0),
         ioCost := p.ioCost.GetOr(0.0),
         time := LongValue(p.time.GetOr(0)))
  }

  /** Reading the root row touches only the six plan figures. */
  lemma WithParentKeepsIdentity(s: Summary, parent: Option<PlanRow>)
    ensures var t := WithParent(s, parent);
            && t.statementId == s.statementId && t.originalQuery == s.originalQuery
            && t.analysisTimeMs == s.analysisTimeMs && t.timestamp == s.timestamp
            && t.stackTrace == s.stackTrace
  {
  }

  /** A root row whose columns are all present and fit a long is copied
      exactly. */
  lemma WithParentCopies(s: Summary, p: PlanRow)
    requires p.cost.Some? && p.cardinality.Some? && p.bytes.Some?
    requires p.cpuCost.Some? && p.ioCost.Some? && p.time.Some?
    requires LongMin <= p.cardinality.value <= LongMax
    requires LongMin <= p.bytes.value <= LongMax
    requires LongMin <= p.time.value <= LongMax
    ensures var t := WithParent(s, Some(p));
            && t.cost == p.cost.value && t.cardinality == p.cardinality.value
            && t.bytes == p.bytes.value && t.cpuCost == p.cpuCost.value
            && t.ioCost == p.ioCost.value && t.time == p.time.value
  {
  }

  /** A root row of NULLs resets the figures to zero, whatever they were. */
  lemma WithParentOfNulls(s: Summary, id: int)
    ensures var t := WithParent(s, Some(PlanRow(id, None, None, None, None, None, None, None, None, None, None)));
            && t.cost == 0.0 && t.cardinality == 0 && t.bytes == 0
            && t.cpuCost == 0.0 && t.ioCost == 0.0 && t.time == 0
  {
  }

  /** retrieveParentPlanDetails: the SELECT of the statement's row with
      ID = 0 (the first one, if there are several) fails with an
      SQLException, or its figures are copied into the summary. */
  method RetrieveParentPlanDetails(table: PlanTable, sid: string, summary: QueryExecutionSummary)
    returns (r: Outcome<Fault>)
    modifies summary
    ensures DbOp.ReadParent in table.failing ==>
              r == Fail(Sql(DbOp.ReadParent)) && summary.View() == old(summary.View())
    ensures DbOp.ReadParent !in table.failing ==>
              r == Pass && summary.View() == WithParent(old(summary.View()), FirstWithId(table.Rows(sid), 0))
  {
    var rs := table.ReadParent(sid);
    if rs.Failure? {
      return Fail(rs.error);
    }
    r := Pass;
    if rs.value.Some? {
      CopyParent(rs.value.value, summary);
    }
  }

  /** The body of `if (rs.next())`: the six figures, in column order. */
  method CopyParent(p: PlanRow, summary: QueryExecutionSummary)
    modifies summary
    ensures summary.View() == WithParent(old(summary.View()), Some(p))
  {
    ghost var s0 := summary.View();
    summary.SetCost(if p.cost.Some? then p.cost.value else 0.0);
    summary.SetCardinality(if p.cardinality.Some? then LongValue(p.cardinality.value) else 0);
    summary.SetBytes(if p.bytes.Some? then LongValue(p.bytes.value) else 0);
    assert summary.View() == s0.(cost := p.cost.GetOr(0.0), cardinality := LongValue(p.cardinality.GetOr(0)),
                                 bytes := LongValue(p.bytes.GetOr(0)));
    summary.SetCpuCost(if p.cpuCost.Some? then p.cpuCost.value else 0.0);
    summary.SetIoCost(if p.ioCost.Some? then p.ioCost.value else 0.0);
    summary.SetTime(if p.time.Some? then LongValue(p.time.value) else 0);
  }

  /** What analyzeQuery ends with, for a UUID `uuid` whose PLAN_TABLE rows
      were `before` and for which EXPLAIN PLAN writes `written`: the first
      SQLException, if any, and the summary's fields. */
  function SummaryOutcome(failing: set<DbOp>, uuid: string, now: DateTime, query: string,
                          before: seq<PlanRow>, written: seq<PlanRow>, elapsed: int)
    : (Option<Fault>, Summary)
  {
    var base := Summary(Some(uuid), Some(query), 0.0, 0, 0, 0.0, 0.0, 0, elapsed, Some(now), None);
    if DbOp.Explain in failing then (Some(Sql(DbOp.Explain)), base)
    else if DbOp.ReadParent in failing then (Some(Sql(DbOp.ReadParent)), base)
    else (None, WithParent(base, FirstWithId(before + written, 0)))
  }

  /** When the analysis gets through, the summary carries the root row of
      the plan just written if the statement id held no row before it (a
      fresh UUID) and the plan has a root; it keeps the zero defaults when
      the plan has no row with ID = 0. */
  lemma SummaryOfFreshId(failing: set<DbOp>, uuid: string, now: DateTime, query: string,
                         written: seq<PlanRow>, elapsed: int)
    requires DbOp.Explain !in failing && DbOp.ReadParent !in failing
    ensures var (thrown, s) := SummaryOutcome(failing, uuid, now, query, [], written, elapsed);
            && thrown.None?
            && s == WithParent(s.(cost := 0.0, cardinality := 0, bytes := 0, cpuCost := 0.0,
                                  ioCost := 0.0, time := 0), FirstWithId(written, 0))
            && (FirstWithId(written, 0).None? ==> s.cost == 0.0 && s.cardinality == 0 && s.time == 0)
            && s.statementId == Some(uuid) && s.originalQuery == Some(query)
            && s.analysisTimeMs == elapsed
  {
    assert [] + written == written;
  }

  /** analyzeQuery. `uuid` and `now` are what the summary's constructor
      draws; the clock reads t0 at the start and t2 in the finally block.
      `thrown` is the exception analyzeQuery lets through (the summary then
      never reaches the caller). PLAN_TABLE loses the UUID's rows unless
      the DELETE fails, which is silently ignored. */
  method AnalyzeQuery(table: PlanTable, query: string, uuid: string, now: DateTime, t0: int, t2: int)
    returns (summary: QueryExecutionSummary, thrown: Option<Fault>)
    modifies table
    ensures fresh(summary)
    ensures (thrown, summary.View())
            == SummaryOutcome(table.failing, uuid, now, query, old(table.Rows(uuid)),
                              table.optimizer(query), t2 - t0)
    ensures table.rows == TableAfter(table.failing, old(table.rows), uuid, table.optimizer(query))
  {
    summary := new QueryExecutionSummary(uuid, now);
    summary.SetOriginalQuery(Some(query));
    var statementId := uuid;
    thrown := None;
    var explained := table.Explain(statementId, query);
    if explained.Fail? {
      thrown := Some(explained.error);
    } else {
      var read := RetrieveParentPlanDetails(table, statementId, summary);
      if read.Fail? {
        thrown := Some(read.error);
      }
    }
    // finally
    CleanupPlanTable(table, statementId);
    summary.SetAnalysisTimeMs(t2 - t0);
  }
}
