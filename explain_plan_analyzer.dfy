/** ExplainPlanAnalyzer: EXPLAIN PLAN for one statement, the plan read back
    through DBMS_XPLAN.DISPLAY (or, when that yields no step, straight from
    PLAN_TABLE), the total cost, and the clean-up of PLAN_TABLE. The clock
    and the thread id are parameters. */
module ExplainPlanAnalyzer {
  import opened Wrappers
  import opened Faults
  import opened JavaText
  import opened JavaNumbers
  import opened ExecutionPlan
  import opened PlanTables
  import opened PlanLines

  // ---------------------------------------------------------------------------
  // The statement id

  /** "STMT_" + currentTimeMillis() + "_" + the thread id. */
  function StatementId(millis: int, threadId: int): string {
    "STMT_" + (IntText(millis) + "_" + IntText(threadId))
  }

  /** A decimal rendering holds no '_'. */
  lemma NoUnderscoreInIntText(n: int)
    ensures '_' !in IntText(n)
  {
    IntTextShape(n);
    if n < 0 {
      assert IntText(n) == "-" + NatText(-n);
    }
  }

  /** Two words free of `c`, each followed by `c`, are told apart by it. */
  lemma {:induction false} SplitAtMarker(a1: string, b1: string, a2: string, b2: string, c: char)
    requires c !in a1 && c !in a2
    requires a1 + [c] + b1 == a2 + [c] + b2
    ensures a1 == a2 && b1 == b2
  {
    var s := a1 + [c] + b1;
    FirstMarker(a1, b1, c);
    FirstMarker(a2, b2, c);
    assert |a1| == |a2|;
    assert a1 == s[..|a1|];
    assert b1 == s[|a1| + 1..];
  }

  lemma FirstMarker(a: string, b: string, c: char)
    requires c !in a
    ensures (a + [c] + b)[|a|] == c
    ensures forall i :: 0 <= i < |a| ==> (a + [c] + b)[i] != c
  {
    forall i | 0 <= i < |a| ensures (a + [c] + b)[i] != c {
      assert (a + [c] + b)[i] == a[i];
    }
  }

  /** Distinct (time, thread) pairs get distinct statement ids, so two
      analyses never share PLAN_TABLE rows unless they run in the same
      millisecond on the same thread. */
  lemma StatementIdInjective(m1: int, t1: int, m2: int, t2: int)
    requires StatementId(m1, t1) == StatementId(m2, t2)
    ensures m1 == m2 && t1 == t2
  {
    var x1 := IntText(m1) + "_" + IntText(t1);
    var x2 := IntText(m2) + "_" + IntText(t2);
    assert x1 == StatementId(m1, t1)[5..];
    assert x2 == StatementId(m2, t2)[5..];
    NoUnderscoreInIntText(m1);
    NoUnderscoreInIntText(m2);
    SplitAtMarker(IntText(m1), IntText(t1), IntText(m2), IntText(t2), '_');
    IntTextInjective(m1, m2);
    IntTextInjective(t1, t2);
  }

  lemma IntTextInjective(a: int, b: int)
    requires IntText(a) == IntText(b)
    ensures a == b
  {
    ParseIntText(a, a, a);
    ParseIntText(b, b, b);
  }

  // ---------------------------------------------------------------------------
  // Reading PLAN_TABLE directly

  /** The step a PLAN_TABLE row gives: the object name, when it is not
      blank, is appended to the operation (a NULL operation reads "null");
      a NULL cost or cardinality is 0. */
  function StepOfRow(row: PlanRow): Step {
    var operation :=
      if row.objectName.Some? && !IsBlank(row.objectName.value)
      then Some(ValueOf(row.operation) + " " + row.objectName.value)
      else row.operation;
    Step(row.id, operation, row.objectName,
         if row.cost.Some? then row.cost.value else 0.0,
         if row.cardinality.Some? then LongValue(row.cardinality.value) else 0,
         row.accessPredicates, row.filterPredicates)
  }

  /** A step has no operation only when the row has neither an operation
      nor an object name; without a name the operation is copied. */
  lemma StepOfRowOperation(row: PlanRow)
    ensures StepOfRow(row).operation.None? <==>
              row.operation.None? && (row.objectName.None? || IsBlank(row.objectName.value))
    ensures row.objectName.None? || IsBlank(row.objectName.value) ==>
              StepOfRow(row).operation == row.operation
  {
  }

  /** With a non-blank object name the operation column ends with that name,
      after the operation text and a blank. */
  lemma StepOfRowNamed(row: PlanRow)
    requires row.objectName.Some? && !IsBlank(row.objectName.value)
    ensures var op := StepOfRow(row).operation;
            && op.Some?
            && StartsWith(op.value, ValueOf(row.operation) + " ")
            && op.value[|ValueOf(row.operation)| + 1..] == row.objectName.value
  {
  }

  /** The steps of PLAN_TABLE rows, one per row, in row order. */
  function StepsOfRows(rows: seq<PlanRow>): (steps: seq<Step>)
    ensures |steps| == |rows|
    ensures forall k :: 0 <= k < |rows| ==> steps[k] == StepOfRow(rows[k])
  {
    if rows == [] then [] else [StepOfRow(rows[0])] + StepsOfRows(rows[1..])
  }

  /** What the direct PLAN_TABLE query yields: ORDER BY ID, one step per
      row. */
  function PlanTableSteps(rows: seq<PlanRow>): seq<Step> {
    StepsOfRows(SortById(rows))
  }

  /** The direct query hands back every row of the statement as a step, in
      ascending id order. */
  lemma PlanTableStepsOrdered(rows: seq<PlanRow>)
    ensures |PlanTableSteps(rows)| == |rows|
    ensures forall i, j :: 0 <= i < j < |rows| ==>
              PlanTableSteps(rows)[i].id <= PlanTableSteps(rows)[j].id
    ensures multiset(SortById(rows)) == multiset(rows)
  {
    var sorted := SortById(rows);
    assert |sorted| == |multiset(sorted)| == |rows|;
  }

  /** Rows that EXPLAIN PLAN wrote in id order come back one step per row in
      that order. */
  lemma PlanTableStepsOfSorted(rows: seq<PlanRow>)
    requires SortedById(rows)
    ensures PlanTableSteps(rows) == StepsOfRows(rows)
  {
    SortOfSorted(rows);
  }

  /** One row of the direct query, copied into a new ExecutionStep. */
  method RowToStep(row: PlanRow) returns (step: ExecutionStep)
    ensures fresh(step)
    ensures step.Value() == StepOfRow(row)
  {
    step := new ExecutionStep();
    step.SetId(row.id);
    var operation := row.operation;
    if row.objectName.Some? && !IsBlank(row.objectName.value) {
      operation := Some(ValueOf(operation) + " " + row.objectName.value);
    }
    step.SetOperation(operation);
    step.SetObjectName(row.objectName);
    step.SetCost(if row.cost.Some? then row.cost.value else 0.0);
    step.SetCardinality(if row.cardinality.Some? then LongValue(row.cardinality.value) else 0);
    step.SetAccessPredicates(row.accessPredicates);
    step.SetFilterPredicates(row.filterPredicates);
  }

  /** retrieveExecutionPlanFromPlanTable: the SELECT fails with an
      SQLException or yields the statement's rows as steps, by id. */
  method RetrieveFromPlanTable(table: PlanTable, sid: string) returns (r: Result<seq<Step>, Fault>)
    ensures DbOp.ReadPlan in table.failing ==> r == Failure(Sql(DbOp.ReadPlan))
    ensures DbOp.ReadPlan !in table.failing ==> r == Success(PlanTableSteps(table.Rows(sid)))
  {
    var rs := table.ReadPlan(sid);
    if rs.Failure? {
      return Failure(rs.error);
    }
    var steps := CopyRows(rs.value);
    r := Success(steps);
  }

  /** The while (rs.next()) loop: one new step per fetched row, appended in
      fetch order. */
  method CopyRows(rows: seq<PlanRow>) returns (steps: seq<Step>)
    ensures steps == StepsOfRows(rows)
  {
    steps := [];
    var i := 0;
    while i < |rows|
      invariant 0 <= i <= |rows|
      invariant |steps| == i
      invariant forall k :: 0 <= k < i ==> steps[k] == StepOfRow(rows[k])
    {
      var step := RowToStep(rows[i]);
      steps := steps + [step.Value()];
      i := i + 1;
    }
  }

  // ---------------------------------------------------------------------------
  // Reading DBMS_XPLAN.DISPLAY

  /** The lines taken for table rows: they hold a '|' but neither "---" (a
      rule) nor "Id" (the heading). */
  predicate IsPlanRowLine(line: string) {
    Contains(line, "|") && !Contains(line, "---") && !Contains(line, "Id")
  }

  /** The step one DISPLAY line contributes: none for a NULL line, a line
      that is not a table row, or a row parsePlanLine rejects. */
  function LineSteps(line: Option<string>): (steps: seq<Step>)
    ensures |steps| <= 1
    ensures steps != [] ==> line.Some? && IsPlanRowLine(line.value)
                            && ParsePlanLine(line.value) == Some(steps[0])
  {
    match line
    case None => []
    case Some(l) =>
      if !IsPlanRowLine(l) then []
      else
        match ParsePlanLine(l)
        case Some(s) => [s]
        case None => []
  }

  /** The steps parsed from the DISPLAY output, in output order. */
  function XPlanSteps(lines: seq<Option<string>>): (steps: seq<Step>)
    ensures |steps| <= |lines|
  {
    ConcatShort(lines, LineSteps);
    Concat(lines, LineSteps)
  }

  /** The output is read line by line: the steps of two stretches of output
      are those of each, one after the other. */
  lemma XPlanStepsAppend(a: seq<Option<string>>, b: seq<Option<string>>)
    ensures XPlanSteps(a + b) == XPlanSteps(a) + XPlanSteps(b)
  {
    ConcatAppend(a, b, LineSteps);
  }

  lemma XPlanStepsLast(lines: seq<Option<string>>, last: Option<string>)
    ensures XPlanSteps(lines + [last]) == XPlanSteps(lines) + LineSteps(last)
  {
    ConcatSnoc(lines, last, LineSteps);
  }

  lemma XPlanStepsSnoc(lines: seq<Option<string>>, i: nat)
    requires i < |lines|
    ensures XPlanSteps(lines[..i + 1]) == XPlanSteps(lines[..i]) + LineSteps(lines[i])
  {
    assert lines[..i + 1] == lines[..i] + [lines[i]];
    XPlanStepsLast(lines[..i], lines[i]);
  }

  lemma LineStepsOfRow(line: Option<string>, step: Option<Step>)
    requires line.Some? && IsPlanRowLine(line.value) && ParsePlanLine(line.value) == step
    ensures LineSteps(line) == if step.Some? then [step.value] else []
  {
  }

  lemma LineStepsOfOther(line: Option<string>)
    requires line.None? || !IsPlanRowLine(line.value)
    ensures LineSteps(line) == []
  {
  }

  /** The heading and the rules of the DISPLAY table add no step. */
  lemma HeadingAddsNoStep(line: string)
    requires Contains(line, "Id") || Contains(line, "---") || !Contains(line, "|")
    ensures LineSteps(Some(line)) == []
  {
  }

  /** A rendered table row that the line filter lets through gives the step
      it was rendered from. */
  lemma RenderedLineStep(starred: bool, id: int, op: string, name: string, rows: int,
                         bytes: string, cost: int, cpu: string, time: string)
    requires IntMin <= id <= IntMax
    requires LongMin <= rows <= LongMax && LongMin <= cost <= LongMax
    requires Renderable(op, name, bytes, cpu, time)
    requires var line := RenderPlanLine(starred, id, op, name, rows, bytes, cost, cpu, time);
             !Contains(line, "---") && !Contains(line, "Id")
    ensures LineSteps(Some(RenderPlanLine(starred, id, op, name, rows, bytes, cost, cpu, time)))
            == [Step(id, Some(op), if name == [] then None else Some(name), cost as real, rows, None, None)]
  {
    var line := RenderPlanLine(starred, id, op, name, rows, bytes, cost, cpu, time);
    var fs := RenderedFields(IdText(starred, id), op, name, rows, bytes, cost, cpu, time);
    assert line[0] == '|' by {
      assert line == Join(fs + [""], '|');
      assert Join(fs + [""], '|') == (fs + [""])[0] + ['|'] + Join((fs + [""])[1..], '|');
    }
    ContainsAt(line, "|", 0);
    ParseRenderedLine(starred, id, op, name, rows, bytes, cost, cpu, time);
  }

  /** What retrieveExecutionPlanFromXPlan returns for a statement whose
      PLAN_TABLE rows are `rows` and whose DISPLAY output is `lines`: the
      parsed steps, or the direct query's steps when none was parsed. */
  function RetrievedSteps(failing: set<DbOp>, rows: seq<PlanRow>,
                          lines: seq<Option<string>>): Result<seq<Step>, Fault>
  {
    if DbOp.Display in failing then Failure(Sql(DbOp.Display))
    else if XPlanSteps(lines) != [] then Success(XPlanSteps(lines))
    else if DbOp.ReadPlan in failing then Failure(Sql(DbOp.ReadPlan))
    else Success(PlanTableSteps(rows))
  }

  /** An empty plan is only ever returned when PLAN_TABLE has no row for the
      statement; a plan read from DISPLAY is never replaced by the table's. */
  lemma RetrievedStepsEmpty(failing: set<DbOp>, rows: seq<PlanRow>, lines: seq<Option<string>>)
    requires RetrievedSteps(failing, rows, lines).Success?
    ensures RetrievedSteps(failing, rows, lines).value == [] <==> XPlanSteps(lines) == [] && rows == []
    ensures XPlanSteps(lines) != [] ==> RetrievedSteps(failing, rows, lines).value == XPlanSteps(lines)
  {
    PlanTableStepsOrdered(rows);
  }

  /** retrieveExecutionPlanFromXPlan: one pass over the DISPLAY output,
      keeping the steps of the row lines; the fallback when none parsed. */
  method RetrieveFromXPlan(table: PlanTable, sid: string) returns (r: Result<seq<Step>, Fault>)
    ensures r == RetrievedSteps(table.failing, table.Rows(sid), table.display(table.Rows(sid)))
  {
    var rs := table.Display(sid);
    if rs.Failure? {
      return Failure(rs.error);
    }
    var lines := rs.value;
    var steps: seq<Step> := [];
    var foundPlan := false;
    var i := 0;
    while i < |lines|
      invariant 0 <= i <= |lines|
      invariant steps == XPlanSteps(lines[..i])
      invariant foundPlan <==> steps != []
    {
      XPlanStepsSnoc(lines, i);
      var line := lines[i];
      if line.Some? && IsPlanRowLine(line.value) {
        var step := ParsePlanLine(line.value);
        LineStepsOfRow(line, step);
        if step.Some? {
          steps := steps + [step.value];
          foundPlan := true;
        }
      } else {
        LineStepsOfOther(line);
      }
      i := i + 1;
    }
    assert lines[..i] == lines;
    if !foundPlan {
      r := RetrieveFromPlanTable(table, sid);
      return;
    }
    r := Success(steps);
  }

  // ---------------------------------------------------------------------------
  // Total cost and the analysis

  /** The largest positive step cost, or 0 when no step costs anything. */
  function MaxPositiveCost(steps: seq<Step>): (m: real)
    ensures m >= 0.0
    ensures forall k :: 0 <= k < |steps| && steps[k].cost > 0.0 ==> steps[k].cost <= m
    ensures m > 0.0 ==> exists k :: 0 <= k < |steps| && steps[k].cost == m
  {
    if steps == [] then 0.0
    else
      var rest := MaxPositiveCost(steps[1..]);
      assert forall k :: 1 <= k < |steps| ==> steps[k] == steps[1..][k - 1];
      if steps[0].cost > rest then steps[0].cost
      else
        assert rest > 0.0 ==> exists k :: 1 <= k < |steps| && steps[k].cost == rest by {
          if rest > 0.0 {
            var j :| 0 <= j < |steps[1..]| && steps[1..][j].cost == rest;
            assert steps[j + 1].cost == rest;
          }
        }
        rest
  }

  /** The rows PLAN_TABLE holds for `sid` once EXPLAIN PLAN has run. */
  function Explained(failing: set<DbOp>, before: seq<PlanRow>, written: seq<PlanRow>): seq<PlanRow> {
    if DbOp.Explain in failing then before else before + written
  }

  /** PLAN_TABLE once an analysis under `sid` is over: the statement's
      rows are gone, unless the DELETE fails, in which case they are what
      EXPLAIN PLAN left there; no other statement changes. */
  function TableAfter(failing: set<DbOp>, rows: map<string, seq<PlanRow>>, sid: string,
                      written: seq<PlanRow>): (after: map<string, seq<PlanRow>>)
    ensures forall other :: other != sid ==> (other in after <==> other in rows)
    ensures forall other :: other != sid && other in rows ==> after[other] == rows[other]
    ensures DbOp.Delete !in failing ==> sid !in after
  {
    if DbOp.Delete !in failing then rows - {sid}
    else if DbOp.Explain in failing then rows
    else rows[sid := RowsOf(rows, sid) + written]
  }

  /** The rows a table state holds for `sid`. */
  function RowsOf(rows: map<string, seq<PlanRow>>, sid: string): seq<PlanRow> {
    if sid in rows then rows[sid] else []
  }

  /** After an analysis the statement holds no row, or, when the DELETE
      fails, the rows EXPLAIN PLAN left; every other statement's rows are
      as they were. */
  lemma TableAfterRows(failing: set<DbOp>, rows: map<string, seq<PlanRow>>, sid: string,
                       written: seq<PlanRow>)
    ensures var after := TableAfter(failing, rows, sid, written);
            && RowsOf(after, sid) == (if DbOp.Delete in failing then Explained(failing, RowsOf(rows, sid), written) else [])
            && forall other :: other != sid ==> RowsOf(after, other) == RowsOf(rows, other)
  {
  }

  /** What the try block of analyzeQuery ends with, for a statement that
      held `before` and for which EXPLAIN PLAN writes `written`: the first
      SQLException, or the steps read back. */
  function Analysis(failing: set<DbOp>, display: seq<PlanRow> -> seq<Option<string>>,
                    before: seq<PlanRow>, written: seq<PlanRow>): Result<seq<Step>, Fault>
  {
    if DbOp.Explain in failing then Failure(Sql(DbOp.Explain))
    else RetrievedSteps(failing, before + written, display(before + written))
  }

  /** EXPLAIN PLAN for `query` under `sid`, then the plan read back. */
  method ExplainAndRetrieve(table: PlanTable, sid: string, query: string)
    returns (r: Result<seq<Step>, Fault>)
    modifies table
    ensures r == Analysis(table.failing, table.display, old(table.Rows(sid)), table.optimizer(query))
    ensures table.rows == if DbOp.Explain in table.failing then old(table.rows)
                          else old(table.rows)[sid := old(table.Rows(sid)) + table.optimizer(query)]
  {
    var explained := table.Explain(sid, query);
    if explained.Fail? {
      return Failure(explained.error);
    }
    r := RetrieveFromXPlan(table, sid);
  }

  /** cleanupPlanTable: DELETE the statement's rows; an SQLException is
      reported on the error stream and swallowed. */
  method CleanupPlanTable(table: PlanTable, sid: string)
    modifies table
    ensures DbOp.Delete !in table.failing ==> table.rows == old(table.rows) - {sid}
    ensures DbOp.Delete in table.failing ==> table.rows == old(table.rows)
  {
    var deleted := table.Delete(sid);
  }

  /** analyzeQuery. The clock reads t0 (the start), t1 (inside the statement
      id) and t2 (in the finally block); `threadId` is the current thread's.
      `thrown` is the exception analyzeQuery lets through, in which case
      the plan never reaches the caller; `sid` names the statement id used. PLAN_TABLE loses the statement's
      rows whatever happened, unless the DELETE itself fails, whose
      SQLException is swallowed; no other statement's rows change. */
  method AnalyzeQuery(table: PlanTable, query: string, t0: int, t1: int, threadId: int, t2: int)
    returns (plan: QueryExecutionPlan, thrown: Option<Fault>, ghost sid: string)
    modifies table
    ensures sid == StatementId(t1, threadId)
    ensures fresh(plan)
    ensures var got := Analysis(table.failing, table.display, old(table.Rows(sid)), table.optimizer(query));
            && thrown == (if got.Failure? then Some(got.error) else None)
            && plan.View() == Plan(Some(query), if got.Success? then Some(got.value) else None,
                                   if got.Success? then MaxPositiveCost(got.value) else 0.0, t2 - t0, None)
    ensures table.rows == TableAfter(table.failing, old(table.rows), sid, table.optimizer(query))
  {
    plan := new QueryExecutionPlan(Some(query));
    var statementId := StatementId(t1, threadId);
    sid := statementId;
    thrown := ExplainInto(table, plan, statementId, query);
    // finally
    CleanupPlanTable(table, statementId);
    plan.SetExecutionTime(t2 - t0);
  }

  /** The try block of analyzeQuery: EXPLAIN PLAN, the steps read back into
      the plan, and their total cost; `thrown` is the SQLException that
      ends it early, leaving the plan as it was. */
  method ExplainInto(table: PlanTable, plan: QueryExecutionPlan, sid: string, query: string)
    returns (thrown: Option<Fault>)
    modifies table, plan
    ensures var got := Analysis(table.failing, table.display, old(table.Rows(sid)), table.optimizer(query));
            && thrown == (if got.Failure? then Some(got.error) else None)
            && plan.View() == if got.Failure? then old(plan.View())
                              else old(plan.View()).(steps := Some(got.value), totalCost := MaxPositiveCost(got.value))
    ensures table.rows == if DbOp.Explain in table.failing then old(table.rows)
                          else old(table.rows)[sid := old(table.Rows(sid)) + table.optimizer(query)]
  {
    var got := ExplainAndRetrieve(table, sid, query);
    if got.Failure? {
      return Some(got.error);
    }
    plan.SetSteps(Some(got.value));
    plan.SetTotalCost(MaxPositiveCost(got.value));
    thrown := None;
  }
}
