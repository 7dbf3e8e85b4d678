/** QueryFormatter: the text report printed for a QueryExecutionPlan. The
    report is a header, a list of titled sections and a closing separator;
    the plan table is a list of lines, and the recommendations a list of
    advice values, each with its own fixed text. LocalDateTime.now() is the
    parameter `now`. */
module QueryFormatter {
  import opened Wrappers
  import opened Faults
  import opened JavaText
  import opened JavaNumbers
  import opened DateTimes
  import opened ExecutionPlan
  import opened SqlReflow

  /** "=".repeat(80) and "-".repeat(80). */
  const Separator: string := Repeat('=', 80)
  const Rule: string := Repeat('-', 80)

  // ---------------------------------------------------------------------------
  // truncate

  /** truncate(str, length): null prints as nothing, and a string longer
      than `length` keeps its first length - 3 characters followed by
      "...". */
  function Truncate(str: Option<string>, length: nat): (r: string)
    requires length >= 3
    ensures |r| <= length
    ensures str.None? ==> r == []
    ensures str.Some? && |str.value| <= length ==> r == str.value
    ensures str.Some? && |str.value| > length ==>
              |r| == length && r[..length - 3] == str.value[..length - 3] && r[length - 3..] == "..."
  {
    match str
    case None => []
    case Some(s) => if |s| > length then s[..length - 3] + "..." else s
  }

  /** Truncating twice is truncating once: the shortened text already fits. */
  lemma TruncateIdempotent(str: Option<string>, length: nat)
    requires length >= 3
    ensures Truncate(Some(Truncate(str, length)), length) == Truncate(str, length)
  {
  }

  // ---------------------------------------------------------------------------
  // formatExecutionPlan

  /** The five spaces that indent the predicate lines. */
  const Indent: string := "     "

  /** The column headings, each left-justified in its column's width. */
  const HeadingText: string :=
    PadRight("ID", 4) + " " + PadRight("OPERATION", 25) + " " + PadRight("OBJECT", 20) + " "
    + PadRight("COST", 10) + " " + PadRight("CARDINALITY", 12)

  /** The rule under the headings. */
  const DashRule: string := Repeat('-', 75)

  /** A line of the plan table: the column headings, the dashes under
      them, a step's row, or one of its predicates. */
  datatype Line =
    | Headings
    | Dashes
    | Row(step: Step)
    | Predicate(name: string, text: string)

  /** "%-4d %-25s %-20s %-10.0f %-12d" of a step: the id column, then the
      others. */
  function RowText(step: Step): string {
    PadRight(FormatInt(step.id, false), 4) + RowTail(step)
  }

  /** The columns after the id. */
  function RowTail(step: Step): string {
    " " + PadRight(Truncate(step.operation, 25), 25) + " "
    + PadRight(Truncate(step.objectName, 20), 20) + " "
    + PadRight(FormatFixed(step.cost, 0, false), 10) + " "
    + PadRight(FormatInt(step.cardinality, false), 12)
  }

  function LineText(l: Line): string {
    match l
    case Headings => HeadingText
    case Dashes => DashRule
    case Row(step) => RowText(step)
    case Predicate(name, text) => Indent + name + ": " + text
  }

  /** A line with its line break (%n is taken to be "\n"). */
  function LineOut(l: Line): string {
    LineText(l) + "\n"
  }

  /** The line for a predicate column, when it is not null. */
  function PredicateLines(name: string, p: Option<string>): seq<Line> {
    if p.Some? then [Predicate(name, p.value)] else []
  }

  /** The lines one step prints: its row, then its access and filter
      predicates when present. */
  function StepLines(step: Step): seq<Line> {
    [Row(step)] + PredicateLines("Access", step.accessPredicates)
    + PredicateLines("Filter", step.filterPredicates)
  }

  /** The whole table: headings and dashes, then the lines of every step
      in list order. */
  function TableLines(steps: seq<Step>): seq<Line> {
    if steps == [] then [Headings, Dashes]
    else TableLines(steps[..|steps| - 1]) + StepLines(steps[|steps| - 1])
  }

  /** What formatExecutionPlan returns; iterating a null step list throws. */
  function PlanTable(plan: Plan): Result<string, Fault> {
    if plan.steps.None? then Failure(NullPointer)
    else Success(Concat(TableLines(plan.steps.value), LineOut))
  }

  /** formatExecutionPlan. */
  method FormatExecutionPlan(plan: QueryExecutionPlan) returns (r: Result<string, Fault>)
    ensures r == PlanTable(plan.View())
  {
    var sb := TableHead();
    if plan.steps.None? {
      return Failure(NullPointer);
    }
    var steps := plan.steps.value;
    var i := 0;
    while i < |steps|
      invariant 0 <= i <= |steps|
      invariant sb == Concat(TableLines(steps[..i]), LineOut)
    {
      var block := StepText(steps[i]);
      TableTextSnoc(steps, i);
      sb := sb + block;
      i := i + 1;
    }
    assert steps[..i] == steps;
    r := Success(sb);
  }

  /** The table of the first i + 1 steps extends that of the first i by
      the lines of step i. */
  lemma TableTextSnoc(steps: seq<Step>, i: nat)
    requires i < |steps|
    ensures Concat(TableLines(steps[..i + 1]), LineOut)
            == Concat(TableLines(steps[..i]), LineOut) + Concat(StepLines(steps[i]), LineOut)
  {
    assert steps[..i + 1][..i] == steps[..i];
    ConcatAppend(TableLines(steps[..i]), StepLines(steps[i]), LineOut);
  }

  /** The two heading lines. */
  method TableHead() returns (text: string)
    ensures text == Concat(TableLines([]), LineOut)
  {
    text := Append("", [], Headings, LineOut);
    assert [] + [Headings] == [Headings];
    text := Append(text, [Headings], Dashes, LineOut);
  }

  /** The body of the loop over the steps: the row, then the predicate
      lines that are not null. */
  method StepText(step: Step) returns (text: string)
    ensures text == Concat(StepLines(step), LineOut)
  {
    ghost var lines: seq<Line> := [Row(step)];
    text := Append("", [], Row(step), LineOut);
    assert [] + lines == lines;
    if step.accessPredicates.Some? {
      var l := Predicate("Access", step.accessPredicates.value);
      text := Append(text, lines, l, LineOut);
      lines := lines + [l];
    }
    if step.filterPredicates.Some? {
      var l := Predicate("Filter", step.filterPredicates.value);
      text := Append(text, lines, l, LineOut);
      lines := lines + [l];
    }
    assert lines == StepLines(step);
  }

  /** The steps whose rows appear among `ls`, in order. */
  function RowSteps(ls: seq<Line>): seq<Step> {
    if ls == [] then [] else (if ls[0].Row? then [ls[0].step] else []) + RowSteps(ls[1..])
  }

  lemma {:induction false} RowStepsAppend(a: seq<Line>, b: seq<Line>)
    ensures RowSteps(a + b) == RowSteps(a) + RowSteps(b)
  {
    if a != [] {
      RowStepsAppend(a[1..], b);
      assert (a + b)[1..] == a[1..] + b;
    } else {
      assert a + b == b;
    }
  }

  /** A step's own lines hold exactly one row, its own. */
  lemma StepRows(step: Step)
    ensures RowSteps(StepLines(step)) == [step]
  {
    var acc := PredicateLines("Access", step.accessPredicates);
    var fil := PredicateLines("Filter", step.filterPredicates);
    RowStepsAppend([Row(step)], acc);
    RowStepsAppend([Row(step)] + acc, fil);
    assert RowSteps([Row(step)]) == [step] by { assert [Row(step)][1..] == []; }
    assert RowSteps(acc) == [] by { if acc != [] { assert acc[1..] == []; } }
    assert RowSteps(fil) == [] by { if fil != [] { assert fil[1..] == []; } }
  }

  /** The plan table starts with the headings and the dashes and has
      exactly one row per step, in list order. */
  lemma {:induction false} PlanRowsInOrder(steps: seq<Step>)
    ensures |TableLines(steps)| >= 2 && TableLines(steps)[..2] == [Headings, Dashes]
    ensures RowSteps(TableLines(steps)) == steps
    decreases |steps|
  {
    if steps == [] {
      assert RowSteps([Headings, Dashes]) == [] by {
        assert [Headings, Dashes][1..] == [Dashes];
        assert [Dashes][1..] == [];
      }
    } else {
      var init := steps[..|steps| - 1];
      var last := steps[|steps| - 1];
      PlanRowsInOrder(init);
      RowStepsAppend(TableLines(init), StepLines(last));
      StepRows(last);
      assert init + [last] == steps;
      assert (TableLines(init) + StepLines(last))[..2] == TableLines(init)[..2];
    }
  }

  /** Under each row comes an Access line exactly when the step has access
      predicates and a Filter line exactly when it has filter predicates,
      Access first; nothing else. */
  lemma StepLinesShape(step: Step)
    ensures var ls := StepLines(step);
            && ls[0] == Row(step)
            && (forall k :: 1 <= k < |ls| ==> ls[k].Predicate?)
            && (forall t :: Predicate("Access", t) in ls <==> step.accessPredicates == Some(t))
            && (forall t :: Predicate("Filter", t) in ls <==> step.filterPredicates == Some(t))
            && (step.accessPredicates.Some? ==> ls[1] == Predicate("Access", step.accessPredicates.value))
  {
  }

  /** A %d number starts with a digit or a minus sign, never a blank. */
  lemma FormatIntHead(n: int)
    ensures FormatInt(n, false) != [] && FormatInt(n, false)[0] != ' '
  {
    var mag := if n < 0 then -n else n;
    assert IsAsciiDigit(NatText(mag)[0]);
  }

  /** A row starts with the first character of the step's id. */
  lemma RowHead(step: Step)
    ensures RowText(step) != [] && RowText(step)[0] != ' '
  {
    var id := FormatInt(step.id, false);
    FormatIntHead(step.id);
    assert PadRight(id, 4)[..|id|] == id;
  }

  /** In the printed table, a step's predicate lines are indented and its
      row is not. */
  lemma LineIndented(l: Line)
    requires l.Row? || l.Predicate?
    ensures StartsWith(LineText(l), Indent) <==> l.Predicate?
  {
    match l
    case Row(step) =>
      var r := RowText(step);
      RowHead(step);
      assert !StartsWith(r, Indent) by {
        if |Indent| <= |r| {
          assert r[..|Indent|][0] == r[0] != Indent[0];
        }
      }
    case Predicate(name, text) =>
      assert LineText(l) == Indent + (name + ": " + text);
  }

  // ---------------------------------------------------------------------------
  // generateRecommendations

  /** One block of the recommendations. */
  datatype Advice =
    | HighCost(cost: real)
    | FullScan(objectName: Option<string>)
    | ExpensiveSort
    | NoIssues

  /** The lines each advice prints. */
  function AdviceText(a: Advice): (r: string)
    ensures r != []
  {
    match a
    case HighCost(c) =>
      "\U{26A0}\U{FE0F}  High query cost detected (" + FormatFixed(c, 0, false) + ")\n"
      + "   - Consider adding indexes on frequently filtered columns\n"
      + "   - Review WHERE clause conditions\n"
    case FullScan(o) =>
      "\U{1F50D} Full table scan detected on: " + ValueOf(o) + "\n"
      + "   - Consider adding appropriate indexes\n"
    case ExpensiveSort =>
      "\U{1F4CA} Expensive sort operation detected\n"
      + "   - Consider adding indexes to avoid sorting\n"
    case NoIssues =>
      "\U{2705} No major performance issues detected\n"
  }

  /** The operation text a full table scan shows. */
  const FullScanText: string := "TABLE ACCESS FULL"
  const SortText: string := "SORT"

  /** The advice one step triggers; a null operation throws on contains. */
  function StepAdvice(step: Step): (r: Result<seq<Advice>, Fault>)
    ensures r.Failure? <==> step.operation.None?
    ensures r.Failure? ==> r.error == NullPointer
  {
    match step.operation
    case None => Failure(NullPointer)
    case Some(op) =>
      Success((if Contains(op, FullScanText) then [FullScan(step.objectName)] else [])
              + (if Contains(op, SortText) && step.cost > 100.0 then [ExpensiveSort] else []))
  }

  /** The advice of the steps, in list order. */
  function StepsAdvice(steps: seq<Step>): (r: Result<seq<Advice>, Fault>)
    ensures r.Failure? ==> r.error == NullPointer
  {
    if steps == [] then Success([])
    else
      var init :- StepsAdvice(steps[..|steps| - 1]);
      var last :- StepAdvice(steps[|steps| - 1]);
      Success(init + last)
  }

  /** The advice for a whole plan: the cost block, the steps' blocks, and
      the all-clear when nothing else was said. */
  function Advices(plan: Plan): Result<seq<Advice>, Fault> {
    if plan.steps.None? then Failure(NullPointer)
    else
      var found :- StepsAdvice(plan.steps.value);
      var all := (if plan.totalCost > 1000.0 then [HighCost(plan.totalCost)] else []) + found;
      Success(if all == [] then [NoIssues] else all)
  }

  /** What generateRecommendations returns. */
  function Recommendations(plan: Plan): Result<string, Fault> {
    var v :- Advices(plan);
    Success(Concat(v, AdviceText))
  }

  /** One null operation among the steps makes the whole list throw. */
  lemma {:induction false} StepsAdviceNull(steps: seq<Step>, i: nat)
    requires i < |steps| && steps[i].operation.None?
    ensures StepsAdvice(steps) == Failure(NullPointer)
    decreases |steps|
  {
    if i < |steps| - 1 {
      StepsAdviceNull(steps[..|steps| - 1], i);
    }
  }

  /** The advice text after step i extends that after step i - 1 by the
      step's own blocks. */
  lemma AdviceTextSnoc(high: seq<Advice>, steps: seq<Step>, i: nat)
    requires i < |steps| && StepsAdvice(steps[..i]).Success? && steps[i].operation.Some?
    ensures StepsAdvice(steps[..i + 1]).Success?
    ensures Concat(high + StepsAdvice(steps[..i + 1]).value, AdviceText)
            == Concat(high + StepsAdvice(steps[..i]).value, AdviceText)
               + Concat(StepAdvice(steps[i]).value, AdviceText)
  {
    assert steps[..i + 1][..i] == steps[..i];
    var a := StepsAdvice(steps[..i]).value;
    var b := StepAdvice(steps[i]).value;
    assert high + StepsAdvice(steps[..i + 1]).value == (high + a) + b;
    ConcatAppend(high + a, b, AdviceText);
  }

  /** Every advice block prints as something, so the buffer is empty
      exactly when no block was appended; the all-clear alone prints as its
      own text. */
  lemma AdviceTextEmpty(v: seq<Advice>)
    ensures Concat(v, AdviceText) == [] <==> v == []
    ensures Concat([NoIssues], AdviceText) == AdviceText(NoIssues)
  {
    assert forall x :: AdviceText(x) != [];
    ConcatEmpty(v, AdviceText);
    ConcatSnoc([], NoIssues, AdviceText);
    assert [] + [NoIssues] == [NoIssues];
  }

  /** generateRecommendations: the cost test, then each step in order,
      then the all-clear if the buffer is still empty. */
  method GenerateRecommendations(plan: QueryExecutionPlan) returns (r: Result<string, Fault>)
    ensures r == Recommendations(plan.View())
  {
    var high: seq<Advice> := [];
    var sb := "";
    if plan.totalCost > 1000.0 {
      sb := Append(sb, high, HighCost(plan.totalCost), AdviceText);
      high := high + [HighCost(plan.totalCost)];
    }
    if plan.steps.None? {
      return Failure(NullPointer);
    }
    var steps := plan.steps.value;
    var i := 0;
    while i < |steps|
      invariant 0 <= i <= |steps|
      invariant StepsAdvice(steps[..i]).Success?
      invariant sb == Concat(high + StepsAdvice(steps[..i]).value, AdviceText)
    {
      if steps[i].operation.None? {
        StepsAdviceNull(steps, i);
        return Failure(NullPointer);
      }
      var block := StepAdviceText(steps[i]);
      AdviceTextSnoc(high, steps, i);
      sb := sb + block;
      i := i + 1;
    }
    assert steps[..i] == steps;
    AdviceTextEmpty(high + StepsAdvice(steps).value);
    if |sb| == 0 {
      sb := sb + AdviceText(NoIssues);
    }
    r := Success(sb);
  }

  /** The body of the loop over the steps, for a step whose operation is
      not null. */
  method StepAdviceText(step: Step) returns (text: string)
    requires step.operation.Some?
    ensures text == Concat(StepAdvice(step).value, AdviceText)
  {
    ghost var v: seq<Advice> := [];
    text := "";
    var op := step.operation.value;
    if Contains(op, FullScanText) {
      text := Append(text, v, FullScan(step.objectName), AdviceText);
      v := v + [FullScan(step.objectName)];
    }
    if Contains(op, SortText) && step.cost > 100.0 {
      text := Append(text, v, ExpensiveSort, AdviceText);
      v := v + [ExpensiveSort];
    }
    assert v == StepAdvice(step).value;
  }


  // Reference definitions of what the recommendations report.

  /** The object names of the steps whose operation mentions a full table
      scan, in list order. */
  function ScanTargets(steps: seq<Step>): seq<Option<string>> {
    if steps == [] then []
    else
      var last := steps[|steps| - 1];
      ScanTargets(steps[..|steps| - 1])
      + (if last.operation.Some? && Contains(last.operation.value, FullScanText) then [last.objectName] else [])
  }

  /** The number of steps that sort and cost more than 100. */
  function CostlySorts(steps: seq<Step>): nat {
    if steps == [] then 0
    else
      var last := steps[|steps| - 1];
      CostlySorts(steps[..|steps| - 1])
      + (if last.operation.Some? && Contains(last.operation.value, SortText) && last.cost > 100.0 then 1 else 0)
  }

  /** The objects the full-scan blocks name, in order. */
  function Scans(v: seq<Advice>): seq<Option<string>> {
    if v == [] then []
    else (if v[0].FullScan? then [v[0].objectName] else []) + Scans(v[1..])
  }

  /** The number of expensive-sort blocks. */
  function SortAlerts(v: seq<Advice>): nat {
    if v == [] then 0 else (if v[0].ExpensiveSort? then 1 else 0) + SortAlerts(v[1..])
  }

  lemma {:induction false} ScansAppend(a: seq<Advice>, b: seq<Advice>)
    ensures Scans(a + b) == Scans(a) + Scans(b)
    ensures SortAlerts(a + b) == SortAlerts(a) + SortAlerts(b)
  {
    if a != [] {
      ScansAppend(a[1..], b);
      assert (a + b)[1..] == a[1..] + b;
    } else {
      assert a + b == b;
    }
  }

  /** What the steps' advice reports is exactly what the reference
      definitions pick out of the steps. */
  lemma {:induction false} StepsAdviceReports(steps: seq<Step>)
    requires StepsAdvice(steps).Success?
    ensures Scans(StepsAdvice(steps).value) == ScanTargets(steps)
    ensures SortAlerts(StepsAdvice(steps).value) == CostlySorts(steps)
    ensures forall k :: 0 <= k < |StepsAdvice(steps).value| ==>
              StepsAdvice(steps).value[k].FullScan? || StepsAdvice(steps).value[k].ExpensiveSort?
    decreases |steps|
  {
    if steps != [] {
      var init := steps[..|steps| - 1];
      var last := steps[|steps| - 1];
      StepsAdviceReports(init);
      var a := StepsAdvice(init).value;
      var b := StepAdvice(last).value;
      ScansAppend(a, b);
      var scan: seq<Advice> := if Contains(last.operation.value, FullScanText) then [FullScan(last.objectName)] else [];
      var sort: seq<Advice> := if Contains(last.operation.value, SortText) && last.cost > 100.0 then [ExpensiveSort] else [];
      ScansAppend(scan, sort);
      assert Scans(sort) == [] && SortAlerts(scan) == 0 by {
        if sort != [] { assert sort[1..] == []; }
        if scan != [] { assert scan[1..] == []; }
      }
    }
  }

  /** The operations all present is exactly when the steps' advice can be
      computed. */
  lemma {:induction false} StepsAdviceSucceeds(steps: seq<Step>)
    ensures StepsAdvice(steps).Success? <==> forall k :: 0 <= k < |steps| ==> steps[k].operation.Some?
    decreases |steps|
  {
    if steps != [] {
      var init := steps[..|steps| - 1];
      StepsAdviceSucceeds(init);
      if exists k :: 0 <= k < |steps| && steps[k].operation.None? {
        var k :| 0 <= k < |steps| && steps[k].operation.None?;
        StepsAdviceNull(steps, k);
      }
    }
  }

  /** Step advice that names no scan and no sort is empty. */
  lemma NoReportsNoAdvice(v: seq<Advice>)
    requires forall k :: 0 <= k < |v| ==> v[k].FullScan? || v[k].ExpensiveSort?
    requires Scans(v) == [] && SortAlerts(v) == 0
    ensures v == []
  {
  }

  /** The recommendations promise: they can be computed unless the step
      list or an operation is null; the cost block comes first and exactly
      when the total cost exceeds 1000; one full-scan block per step that
      scans, naming its object, in step order; one sort block per sorting
      step costing more than 100; and the all-clear exactly when none of
      these was emitted, and then alone. */
  lemma AdvicesPromise(plan: Plan)
    ensures Advices(plan).Success? <==>
              plan.steps.Some? && forall k :: 0 <= k < |plan.steps.value| ==> plan.steps.value[k].operation.Some?
    ensures Advices(plan).Success? ==>
              var v := Advices(plan).value;
              var steps := plan.steps.value;
              && v != []
              && (v[0].HighCost? <==> plan.totalCost > 1000.0)
              && (v[0].HighCost? ==> v[0].cost == plan.totalCost)
              && (v == [NoIssues] <==> plan.totalCost <= 1000.0 && ScanTargets(steps) == [] && CostlySorts(steps) == 0)
              && (v != [NoIssues] ==> Scans(v) == ScanTargets(steps) && SortAlerts(v) == CostlySorts(steps)
                                      && forall k :: 0 < k < |v| ==> v[k].FullScan? || v[k].ExpensiveSort?)
  {
    if plan.steps.Some? {
      var steps := plan.steps.value;
      StepsAdviceSucceeds(steps);
      if StepsAdvice(steps).Success? {
        var found := StepsAdvice(steps).value;
        StepsAdviceReports(steps);
        var high: seq<Advice> := if plan.totalCost > 1000.0 then [HighCost(plan.totalCost)] else [];
        ScansAppend(high, found);
        assert Scans(high) == [] && SortAlerts(high) == 0 by {
          if high != [] { assert high[1..] == []; }
        }
        if Scans(found) == [] && SortAlerts(found) == 0 {
          NoReportsNoAdvice(found);
        }
        assert found != [] ==> found[0].FullScan? || found[0].ExpensiveSort?;
      }
    }
  }

  // ---------------------------------------------------------------------------
  // formatAnalysis

  /** The parts of the report: the banner, titled sections (the title
      line, the 80 dashes, the body and a line break), and the closing
      separator. */
  datatype Part =
    | Banner(now: DateTime, executionTime: int, totalCost: real)
    | Titled(title: string, body: string)
    | Closing

  const QueryTitle: string := "\U{1F4DD} ORIGINAL QUERY:"
  const PlanTitle: string := "\U{1F3D7}\U{FE0F}  EXECUTION PLAN:"
  const StackTitle: string := "\U{1F4CD} CALL STACK:"
  const AdviceTitle: string := "\U{1F4A1} RECOMMENDATIONS:"

  function PartText(p: Part): string {
    match p
    case Banner(now, ms, cost) =>
      "\n" + Separator + "\n"
      + "\U{1F50D} ORACLE QUERY ANALYSIS REPORT\n"
      + "\U{1F4C5} Timestamp: " + FormatSeconds(now) + "\n"
      + "\U{23F1}\U{FE0F}  Analysis Time: " + FormatInt(ms, false) + " ms\n"
      + "\U{1F4B0} Total Cost: " + FormatFixed(cost, 2, false) + "\n"
      + Separator + "\n\n"
    case Titled(title, body) => title + "\n" + Rule + "\n" + body + "\n"
    case Closing => Separator + "\n"
  }

  /** The call stack is shown when it is neither null nor empty. */
  predicate ShowsStack(stack: Option<string>) {
    stack.Some? && stack.value != []
  }

  /** The parts of the report, in order, given the formatted query, the
      plan table and the recommendations; the query section's body ends
      with the extra empty line formatAnalysis adds. */
  function ReportParts(plan: Plan, now: DateTime, shownQuery: string, table: string, advice: string): seq<Part> {
    [Banner(now, plan.executionTime, plan.totalCost)]
    + [Titled(QueryTitle, shownQuery + "\n")]
    + [Titled(PlanTitle, table)]
    + (if ShowsStack(plan.stackTrace) then [Titled(StackTitle, plan.stackTrace.value)] else [])
    + [Titled(AdviceTitle, advice)]
    + [Closing]
  }

  /** What formatAnalysis returns: trimming a null query, iterating a null
      step list or testing a null operation throws. */
  function Report(plan: Plan, now: DateTime): Result<string, Fault> {
    if plan.originalQuery.None? then Failure(NullPointer)
    else ReportOf(plan, now, FormatQuery(plan.originalQuery.value))
  }

  /** The report around a query already formatted as `shownQuery`. */
  function ReportOf(plan: Plan, now: DateTime, shownQuery: string): Result<string, Fault> {
    var table :- PlanTable(plan);
    var advice :- Recommendations(plan);
    Success(Concat(ReportParts(plan, now, shownQuery, table, advice), PartText))
  }

  /** formatAnalysis. */
  method FormatAnalysis(plan: QueryExecutionPlan, now: DateTime) returns (r: Result<string, Fault>)
    ensures r == Report(plan.View(), now)
  {
    var p := Banner(now, plan.executionTime, plan.totalCost);
    var sb := Append("", [], p, PartText);
    assert [] + [p] == [p];
    if plan.originalQuery.None? {
      return Failure(NullPointer);
    }
    var shown := FormatQuery(plan.originalQuery.value);
    var q := Titled(QueryTitle, shown + "\n");
    sb := Append(sb, [p], q, PartText);
    r := FinishReport(plan, now, shown, sb);
  }

  /** The rest of formatAnalysis once the banner and the query are in the
      buffer: the plan, the call stack, the recommendations, the closing
      separator. */
  method FinishReport(plan: QueryExecutionPlan, now: DateTime, shown: string, sb: string)
    returns (r: Result<string, Fault>)
    requires sb == Concat([Banner(now, plan.executionTime, plan.totalCost)]
                          + [Titled(QueryTitle, shown + "\n")], PartText)
    ensures r == ReportOf(plan.View(), now, shown)
  {
    ghost var parts := [Banner(now, plan.executionTime, plan.totalCost)] + [Titled(QueryTitle, shown + "\n")];
    var out := sb;
    var table := FormatExecutionPlan(plan);
    if table.Failure? {
      return Failure(table.error);
    }
    var p := Titled(PlanTitle, table.value);
    out := Append(out, parts, p, PartText);
    parts := parts + [p];
    ghost var stack: seq<Part> := [];
    if plan.stackTrace.Some? && plan.stackTrace.value != [] {
      p := Titled(StackTitle, plan.stackTrace.value);
      out := Append(out, parts, p, PartText);
      stack := [p];
    } else {
      assert parts + stack == parts;
    }
    parts := parts + stack;
    var advice := GenerateRecommendations(plan);
    if advice.Failure? {
      return Failure(advice.error);
    }
    p := Titled(AdviceTitle, advice.value);
    out := Append(out, parts, p, PartText);
    parts := parts + [p];
    out := Append(out, parts, Closing, PartText);
    r := Success(out);
  }

  /** The titles of the titled parts, in order. */
  function Titles(ps: seq<Part>): seq<string> {
    if ps == [] then [] else (if ps[0].Titled? then [ps[0].title] else []) + Titles(ps[1..])
  }

  /** The report can be printed unless the query, the step list or one of
      the operations is null, and then formatAnalysis throws a
      NullPointerException. */
  lemma ReportSucceeds(plan: Plan, now: DateTime)
    ensures Report(plan, now).Success? <==>
              && plan.originalQuery.Some? && plan.steps.Some?
              && forall k :: 0 <= k < |plan.steps.value| ==> plan.steps.value[k].operation.Some?
    ensures Report(plan, now).Failure? ==> Report(plan, now).error == NullPointer
  {
    if plan.steps.Some? {
      StepsAdviceSucceeds(plan.steps.value);
    }
  }

  /** The section titles of two runs of parts are those of each, in order. */
  lemma {:induction false} TitlesAppend(a: seq<Part>, b: seq<Part>)
    ensures Titles(a + b) == Titles(a) + Titles(b)
  {
    if a != [] {
      TitlesAppend(a[1..], b);
      assert (a + b)[1..] == a[1..] + b;
    } else {
      assert a + b == b;
    }
  }

  /** A single part has its own title, if any. */
  lemma TitlesOne(x: Part)
    ensures Titles([x]) == if x.Titled? then [x.title] else []
  {
    assert [x][1..] == [];
  }

  /** The report opens with the banner and closes with the separator; in
      between come the sections in the fixed order query, plan, call stack,
      recommendations, the call stack only when it is neither null nor
      empty. */
  lemma ReportOrder(plan: Plan, now: DateTime, shownQuery: string, table: string, advice: string)
    ensures var ps := ReportParts(plan, now, shownQuery, table, advice);
            && ps[0].Banner? && ps[|ps| - 1] == Closing
            && Titles(ps) == [QueryTitle, PlanTitle] + (if ShowsStack(plan.stackTrace) then [StackTitle] else []) + [AdviceTitle]
  {
    var b := Banner(now, plan.executionTime, plan.totalCost);
    var q := Titled(QueryTitle, shownQuery + "\n");
    var t := Titled(PlanTitle, table);
    var stack := if ShowsStack(plan.stackTrace) then [Titled(StackTitle, plan.stackTrace.value)] else [];
    var stackTitles := if ShowsStack(plan.stackTrace) then [StackTitle] else [];
    var a := Titled(AdviceTitle, advice);
    var p1 := [b] + [q];
    var p2 := p1 + [t];
    var p3 := p2 + stack;
    var p4 := p3 + [a];
    var ps := p4 + [Closing];
    assert ps == ReportParts(plan, now, shownQuery, table, advice);
    assert Titles(p1) == [QueryTitle] by {
      TitlesOne(b);
      TitlesOne(q);
      TitlesAppend([b], [q]);
    }
    assert Titles(p2) == [QueryTitle, PlanTitle] by {
      TitlesOne(t);
      TitlesAppend(p1, [t]);
    }
    assert Titles(p3) == [QueryTitle, PlanTitle] + stackTitles by {
      if stack != [] {
        TitlesOne(stack[0]);
      }
      TitlesAppend(p2, stack);
    }
    assert Titles(p4) == [QueryTitle, PlanTitle] + stackTitles + [AdviceTitle] by {
      TitlesOne(a);
      TitlesAppend(p3, [a]);
    }
    assert Titles(ps) == Titles(p4) by {
      TitlesOne(Closing);
      TitlesAppend(p4, [Closing]);
    }
  }

}
