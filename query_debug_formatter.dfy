/** QueryDebugFormatter: the debug report of a QueryExecutionSummary (the
    root operation's figures only), with a human-readable byte count and a
    performance assessment of cost, cardinality and the I/O-to-CPU
    balance. */
module QueryDebugFormatter {
  import opened Wrappers
  import opened Faults
  import opened JavaText
  import opened JavaNumbers
  import opened DateTimes
  import opened ExecutionSummary
  import opened SqlReflow

  /** "=".repeat(100). */
  const Separator: string := Repeat('=', 100)

  /** "-".repeat(60), under each section title. */
  const Rule: string := Repeat('-', 60)

  // ---------------------------------------------------------------------------
  // formatBytes

  /** The units array, indexed by the number of factors of 1024. */
  const Units: seq<string> := ["B", "KB", "MB", "GB", "TB"]

  /** Math.pow(1024, k). */
  function Pow1024(k: nat): (r: nat)
    ensures r >= 1
  {
    if k == 0 then 1 else 1024 * Pow1024(k - 1)
  }

  lemma {:induction false} Pow1024Monotone(i: nat, j: nat)
    requires i <= j
    ensures Pow1024(i) <= Pow1024(j)
    decreases j
  {
    if i < j {
      Pow1024Monotone(i, j - 1);
    }
  }

  /** (int) (Math.log10(bytes) / Math.log10(1024)): for a positive count,
      the number of whole factors of 1024 in it; for a negative count the
      logarithm is NaN, which the cast turns into 0. */
  function DigitGroups(bytes: int): nat
    decreases if bytes < 0 then 0 else bytes
  {
    if bytes < 1024 then 0 else 1 + DigitGroups(bytes / 1024)
  }

  /** The unit chosen for a positive count is the largest power of 1024
      not above it. */
  lemma {:induction false} DigitGroupsBounds(bytes: int)
    requires bytes >= 1
    ensures Pow1024(DigitGroups(bytes)) <= bytes < Pow1024(DigitGroups(bytes) + 1)
    decreases bytes
  {
    if bytes >= 1024 {
      var q := bytes / 1024;
      DigitGroupsBounds(q);
      var k := DigitGroups(q);
      assert Pow1024(k) <= q < Pow1024(k + 1);
      assert 1024 * q <= bytes < 1024 * q + 1024;
      assert 1024 * Pow1024(k) <= 1024 * q;
      assert 1024 * (q + 1) <= 1024 * Pow1024(k + 1);
    }
  }

  /** ... and only that power: a k with 1024^k <= bytes < 1024^(k+1) is
      the unit index. */
  lemma DigitGroupsUnique(bytes: int, k: nat)
    requires Pow1024(k) <= bytes < Pow1024(k + 1)
    ensures DigitGroups(bytes) == k
  {
    var d := DigitGroups(bytes);
    DigitGroupsBounds(bytes);
    if d < k {
      Pow1024Monotone(d + 1, k);
    } else if k < d {
      Pow1024Monotone(k + 1, d);
    }
  }

  /** formatBytes: "0 B" for zero; otherwise the count divided by the
      chosen power of 1024, with one decimal, and the unit. A count of
      1024^5 bytes or more picks an index past the units array. */
  function FormatBytes(bytes: int): Result<string, Fault> {
    if bytes == 0 then Success("0 B")
    else
      var k := DigitGroups(bytes);
      if k >= |Units| then Failure(IndexOutOfBounds)
      else Success(FormatFixed(bytes as real / Pow1024(k) as real, 1, false) + " " + Units[k])
  }

  /** What formatBytes promises: zero is "0 B"; a positive count below
      1024^5 is shown in the unit of the power of 1024 k with
      1024^k <= bytes < 1024^(k+1), scaled into [1, 1024); a negative count
      keeps the unit B; from 1024^5 on the units array overflows. */
  lemma FormatBytesPromise(bytes: int)
    ensures bytes == 0 ==> FormatBytes(bytes) == Success("0 B")
    ensures FormatBytes(bytes).Failure? <==> bytes >= Pow1024(5)
    ensures FormatBytes(bytes).Failure? ==> FormatBytes(bytes).error == IndexOutOfBounds
    ensures forall k: nat :: k < 5 && Pow1024(k) <= bytes < Pow1024(k + 1) ==>
              && 1.0 <= bytes as real / Pow1024(k) as real < 1024.0
              && FormatBytes(bytes) == Success(FormatFixed(bytes as real / Pow1024(k) as real, 1, false) + " " + Units[k])
    ensures bytes < 0 ==> FormatBytes(bytes) == Success(FormatFixed(bytes as real, 1, false) + " B")
  {
    FormatBytesFails(bytes);
    if bytes < 0 {
      FormatBytesNegative(bytes);
    }
    forall k: nat | k < 5 && Pow1024(k) <= bytes < Pow1024(k + 1)
      ensures 1.0 <= bytes as real / Pow1024(k) as real < 1024.0
      ensures FormatBytes(bytes) == Success(FormatFixed(bytes as real / Pow1024(k) as real, 1, false) + " " + Units[k])
    {
      FormatBytesUnit(bytes, k);
    }
  }

  /** A negative count is shown unscaled, in bytes. */
  lemma FormatBytesNegative(bytes: int)
    requires bytes < 0
    ensures FormatBytes(bytes) == Success(FormatFixed(bytes as real, 1, false) + " B")
  {
    var k := DigitGroups(bytes);
    assert k == 0 && Pow1024(k) == 1;
    var x := bytes as real / Pow1024(k) as real;
    assert x == bytes as real;
    assert FormatBytes(bytes) == Success(FormatFixed(x, 1, false) + " " + Units[k]);
    var f := FormatFixed(x, 1, false);
    assert Units[k] == "B";
    assert f + " " + "B" == f + " B";
  }

  /** formatBytes throws exactly from 1024^5 bytes on. */
  lemma FormatBytesFails(bytes: int)
    ensures FormatBytes(bytes).Failure? <==> bytes >= Pow1024(5)
    ensures FormatBytes(bytes).Failure? ==> FormatBytes(bytes).error == IndexOutOfBounds
  {
    if bytes >= 1 {
      DigitGroupsBounds(bytes);
      var d := DigitGroups(bytes);
      if d >= 5 {
        Pow1024Monotone(5, d);
      } else {
        Pow1024Monotone(d + 1, 5);
      }
    }
  }

  /** A count between 1024^k and 1024^(k+1), for k below 5. */
  lemma FormatBytesUnit(bytes: int, k: nat)
    requires k < 5 && Pow1024(k) <= bytes < Pow1024(k + 1)
    ensures 1.0 <= bytes as real / Pow1024(k) as real < 1024.0
    ensures FormatBytes(bytes) == Success(FormatFixed(bytes as real / Pow1024(k) as real, 1, false) + " " + Units[k])
  {
    DigitGroupsUnique(bytes, k);
    ScaledIntoRange(bytes, Pow1024(k));
  }

  /** A count between p and 1024 p, divided by p, lies in [1, 1024). */
  lemma ScaledIntoRange(bytes: int, p: nat)
    requires 1 <= p <= bytes < 1024 * p
    ensures 1.0 <= bytes as real / p as real < 1024.0
  {
    ShareAbove(bytes as real, p as real, 1.0);
    ShareAbove(bytes as real, p as real, 1024.0);
  }

  // ---------------------------------------------------------------------------
  // generatePerformanceAssessment

  datatype Tier = High | Moderate | Low

  /** One entry of the assessment: its heading, the cost line, the
      cardinality line, or one of the I/O-versus-CPU lines. */
  datatype Note =
    | Heading
    | CostNote(tier: Tier, cost: real)
    | RowsNote(tier: Tier, rows: int)
    | IoBound(ratio: real)
    | CpuBound(ratio: real)

  /** The cost tiers, with strict bounds. */
  function CostTier(cost: real): Tier {
    if cost > 10000.0 then High else if cost > 1000.0 then Moderate else Low
  }

  /** The cardinality line: none up to 10,000 rows. */
  function RowsNotes(rows: int): seq<Note> {
    if rows > 1000000 then [RowsNote(High, rows)]
    else if rows > 10000 then [RowsNote(Moderate, rows)]
    else []
  }

  /** The I/O-versus-CPU line, considered only when both costs are
      positive; ratio = io / (io + cpu). */
  function RatioNotes(io: real, cpu: real): seq<Note> {
    if io > 0.0 && cpu > 0.0 then
      var ratio := io / (io + cpu);
      if ratio > 0.8 then [IoBound(ratio)]
      else if ratio < 0.2 then [CpuBound(ratio)]
      else []
    else []
  }

  /** The entries of the assessment, in order. */
  function AssessmentNotes(s: Summary): seq<Note> {
    [Heading, CostNote(CostTier(s.cost), s.cost)] + RowsNotes(s.cardinality) + RatioNotes(s.ioCost, s.cpuCost)
  }

  /** The text each entry appends. */
  function NoteText(n: Note): string {
    match n
    case Heading => "\U{1F3AF} PERFORMANCE ASSESSMENT:\n" + Rule + "\n"
    case CostNote(High, cost) =>
      "\U{1F534} HIGH COST: Query cost is very high (" + FormatFixed(cost, 0, false) + ")\n"
      + "   \U{2192} Consider optimizing with indexes or query rewrite\n"
    case CostNote(Moderate, cost) =>
      "\U{1F7E1} MODERATE COST: Query cost is moderate (" + FormatFixed(cost, 0, false) + ")\n"
      + "   \U{2192} Monitor performance in production\n"
    case CostNote(Low, cost) =>
      "\U{1F7E2} LOW COST: Query cost is acceptable (" + FormatFixed(cost, 0, false) + ")\n"
    case RowsNote(High, rows) =>
      "\U{1F534} HIGH CARDINALITY: Processing " + FormatInt(rows, true) + " rows\n"
      + "   \U{2192} Consider adding WHERE clauses to reduce result set\n"
    case RowsNote(_, rows) =>
      "\U{1F7E1} MODERATE CARDINALITY: Processing " + FormatInt(rows, true) + " rows\n"
    case IoBound(ratio) =>
      "\U{1F4BF} I/O INTENSIVE: Query is I/O bound (" + FormatFixed(ratio * 100.0, 1, false) + "%"
      + " I/O)\n" + "   \U{2192} Consider adding indexes to reduce I/O\n"
    case CpuBound(ratio) =>
      "\U{1F5A5}\U{FE0F}  CPU INTENSIVE: Query is CPU bound (" + FormatFixed((1.0 - ratio) * 100.0, 1, false) + "%"
      + " CPU)\n" + "   \U{2192} Consider optimizing complex calculations\n"
  }

  /** What generatePerformanceAssessment returns. */
  function AssessmentText(s: Summary): string {
    Concat(AssessmentNotes(s), NoteText)
  }

  /** generatePerformanceAssessment: the heading, then the cost, the
      cardinality and the I/O-versus-CPU assessments in turn. */
  method GeneratePerformanceAssessment(summary: QueryExecutionSummary) returns (text: string)
    ensures text == AssessmentText(summary.View())
  {
    text := Append("", [], Heading, NoteText);
    assert [] + [Heading] == [Heading];
    var n := AssessCost(summary.cost);
    text := Append(text, [Heading], n, NoteText);
    assert [Heading] + [n] == [Heading, n];
    text := AssessRows(text, [Heading, n], summary.cardinality);
    text := AssessRatio(text, [Heading, n] + RowsNotes(summary.cardinality), summary.ioCost, summary.cpuCost);
  }

  /** The cost assessment: exactly one line. */
  method AssessCost(cost: real) returns (n: Note)
    ensures n == CostNote(CostTier(cost), cost)
  {
    if cost > 10000.0 {
      n := CostNote(High, cost);
    } else if cost > 1000.0 {
      n := CostNote(Moderate, cost);
    } else {
      n := CostNote(Low, cost);
    }
  }

  /** The cardinality assessment, appended to a buffer holding `notes`. */
  method AssessRows(sb: string, ghost notes: seq<Note>, rows: int) returns (out: string)
    requires sb == Concat(notes, NoteText)
    ensures out == Concat(notes + RowsNotes(rows), NoteText)
  {
    out := sb;
    if rows > 1000000 {
      out := Append(out, notes, RowsNote(High, rows), NoteText);
    } else if rows > 10000 {
      out := Append(out, notes, RowsNote(Moderate, rows), NoteText);
    } else {
      assert notes + [] == notes;
    }
  }

  /** The I/O-versus-CPU assessment, appended to a buffer holding
      `notes`. */
  method AssessRatio(sb: string, ghost notes: seq<Note>, io: real, cpu: real) returns (out: string)
    requires sb == Concat(notes, NoteText)
    ensures out == Concat(notes + RatioNotes(io, cpu), NoteText)
  {
    out := sb;
    assert notes + [] == notes;
    if io > 0.0 && cpu > 0.0 {
      var ioRatio := io / (io + cpu);
      if ioRatio > 0.8 {
        out := Append(out, notes, IoBound(ioRatio), NoteText);
      } else if ioRatio < 0.2 {
        out := Append(out, notes, CpuBound(ioRatio), NoteText);
      }
    }
  }

  /** A positive share of a positive total, compared with a threshold. */
  lemma ShareAbove(part: real, total: real, c: real)
    requires total > 0.0
    ensures part / total > c <==> part > c * total
    ensures part / total < c <==> part < c * total
  {
    var r := part / total;
    assert r * total == part;
    if r > c {
      assert (r - c) * total > 0.0;
    } else {
      assert (c - r) * total >= 0.0;
    }
    if r < c {
      assert (c - r) * total > 0.0;
    } else {
      assert (r - c) * total >= 0.0;
    }
  }

  /** The ratio thresholds restated without division: for positive costs,
      the I/O share exceeds 80% exactly when I/O is more than four times
      CPU, and is below 20% exactly when CPU is more than four times I/O. */
  lemma RatioThresholds(io: real, cpu: real)
    requires io > 0.0 && cpu > 0.0
    ensures io / (io + cpu) > 0.8 <==> io > 4.0 * cpu
    ensures io / (io + cpu) < 0.2 <==> cpu > 4.0 * io
  {
    ShareAbove(io, io + cpu, 0.8);
    ShareAbove(io, io + cpu, 0.2);
  }

  /** Higher costs never get a lower tier. */
  function TierRank(t: Tier): nat {
    match t
    case Low => 0
    case Moderate => 1
    case High => 2
  }

  lemma CostTierMonotone(a: real, b: real)
    requires a <= b
    ensures TierRank(CostTier(a)) <= TierRank(CostTier(b))
  {
  }

  /** What the assessment promises: it opens with its heading; exactly
      one cost line follows, HIGH above 10,000, MODERATE above 1,000, LOW
      otherwise; a cardinality line appears exactly above 10,000 rows, HIGH
      above 1,000,000; an I/O-bound line appears exactly when both costs are
      positive and I/O exceeds four times CPU, a CPU-bound line exactly when
      both are positive and CPU exceeds four times I/O, never both, each
      showing a share above 80%. */
  lemma AssessmentPromise(s: Summary)
    ensures var ns := AssessmentNotes(s);
            && ns[0] == Heading
            && ns[1] == CostNote(CostTier(s.cost), s.cost)
            && (forall k :: 2 <= k < |ns| ==> !ns[k].CostNote? && !ns[k].Heading?)
            && (CostTier(s.cost) == High <==> s.cost > 10000.0)
            && (CostTier(s.cost) == Low <==> s.cost <= 1000.0)
            && ((exists k :: 2 <= k < |ns| && ns[k].RowsNote?) <==> s.cardinality > 10000)
            && (forall k :: 2 <= k < |ns| && ns[k].RowsNote? ==>
                  ns[k].rows == s.cardinality && (ns[k].tier == High <==> s.cardinality > 1000000))
            && ((exists k :: 0 <= k < |ns| && ns[k].IoBound?) <==> s.ioCost > 0.0 && s.cpuCost > 0.0 && s.ioCost > 4.0 * s.cpuCost)
            && ((exists k :: 0 <= k < |ns| && ns[k].CpuBound?) <==> s.ioCost > 0.0 && s.cpuCost > 0.0 && s.cpuCost > 4.0 * s.ioCost)
            && (forall k :: 0 <= k < |ns| && ns[k].IoBound? ==> 80.0 < ns[k].ratio * 100.0 <= 100.0)
            && (forall k :: 0 <= k < |ns| && ns[k].CpuBound? ==> 80.0 < (1.0 - ns[k].ratio) * 100.0 <= 100.0)
  {
    var rows := RowsNotes(s.cardinality);
    var ratios := RatioNotes(s.ioCost, s.cpuCost);
    var ns := AssessmentNotes(s);
    assert ns == [Heading, CostNote(CostTier(s.cost), s.cost)] + rows + ratios;
    assert forall k :: 2 <= k < 2 + |rows| ==> ns[k] == rows[k - 2];
    assert forall k :: 2 + |rows| <= k < |ns| ==> ns[k] == ratios[k - 2 - |rows|];
    if s.ioCost > 0.0 && s.cpuCost > 0.0 {
      RatioThresholds(s.ioCost, s.cpuCost);
      var ratio := s.ioCost / (s.ioCost + s.cpuCost);
      ShareAbove(s.ioCost, s.ioCost + s.cpuCost, 0.0);
      ShareAbove(s.ioCost, s.ioCost + s.cpuCost, 1.0);
      assert 0.0 < ratio < 1.0;
    }
    if rows != [] {
      assert ns[2] == rows[0];
    }
    if ratios != [] {
      assert ns[2 + |rows|] == ratios[0];
    }
  }

  // ---------------------------------------------------------------------------
  // formatQueryDebug

  /** The blocks of the debug report: the banner, the SQL section, the six
      parent figures, the assessment with a blank line on either side, the
      call stack, and the closing separator. */
  datatype Part =
    | Banner(timestamp: DateTime, statementId: Option<string>, analysisTimeMs: int)
    | SqlQuery(shown: string)
    | Figures(s: Summary, bytesText: string)
    | Assessment(text: string)
    | CallStack(stack: string)
    | Closing

  function PartText(p: Part): string {
    match p
    case Banner(t, id, ms) =>
      "\n" + Separator + "\n"
      + "\U{1F50D} ORACLE QUERY DEBUG - " + FormatMillis(t) + "\n"
      + "\U{1F4CB} Statement ID: " + ValueOf(id) + "\n"
      + "\U{23F1}\U{FE0F}  Analysis Time: " + FormatInt(ms, false) + " ms\n"
      + Separator + "\n"
    case SqlQuery(shown) => "\U{1F4DD} SQL QUERY:\n" + shown + "\n\n"
    case Figures(s, bytesText) =>
      "\U{1F4CA} EXECUTION PLAN SUMMARY (Parent Node):\n" + Rule + "\n"
      + "\U{1F4B0} Total Cost:      " + FormatFixed(s.cost, 0, true) + "\n"
      + "\U{1F4C8} Cardinality:     " + FormatInt(s.cardinality, true) + " rows\n"
      + "\U{1F4BE} Bytes:           " + FormatInt(s.bytes, true) + " bytes (" + bytesText + ")\n"
      + "\U{1F5A5}\U{FE0F}  CPU Cost:        " + FormatFixed(s.cpuCost, 0, true) + "\n"
      + "\U{1F4BF} I/O Cost:        " + FormatFixed(s.ioCost, 0, true) + "\n"
      + "\U{23F0} Estimated Time:  " + FormatInt(s.time, true) + " microseconds\n"
    case Assessment(text) => "\n" + text + "\n"
    case CallStack(stack) => "\U{1F4CD} CALL STACK:\n" + Rule + "\n" + stack + "\n"
    case Closing => Separator + "\n"
  }

  /** The call stack is shown when it is neither null nor empty. */
  predicate ShowsStack(stack: Option<string>) {
    stack.Some? && stack.value != []
  }

  /** The query as the SQL section shows it, or None when it is null. */
  function ShownQuery(query: Option<string>): Option<string> {
    if query.Some? then Some(FormatQuery(query.value)) else None
  }

  /** The parts of the report, in order. */
  function DebugParts(s: Summary, t: DateTime, shown: Option<string>, bytesText: string, assessment: string): seq<Part> {
    [Banner(t, s.statementId, s.analysisTimeMs)]
    + (if shown.Some? then [SqlQuery(shown.value)] else [])
    + [Figures(s, bytesText)]
    + [Assessment(assessment)]
    + (if ShowsStack(s.stackTrace) then [CallStack(s.stackTrace.value)] else [])
    + [Closing]
  }

  /** What formatQueryDebug returns: formatting a null timestamp throws,
      and so does formatBytes past the units array. */
  function DebugReport(s: Summary): Result<string, Fault> {
    if s.timestamp.None? then Failure(NullPointer)
    else
      var bytesText :- FormatBytes(s.bytes);
      Success(Concat(DebugParts(s, s.timestamp.value, ShownQuery(s.originalQuery), bytesText, AssessmentText(s)),
                     PartText))
  }

  /** formatQueryDebug. */
  method FormatQueryDebug(summary: QueryExecutionSummary) returns (r: Result<string, Fault>)
    ensures r == DebugReport(summary.View())
  {
    if summary.timestamp.None? {
      return Failure(NullPointer);
    }
    var t := summary.timestamp.value;
    var p := Banner(t, summary.statementId, summary.analysisTimeMs);
    var sb := Append("", [], p, PartText);
    ghost var parts: seq<Part> := [p];
    assert [] + parts == parts;
    ghost var query: seq<Part> := [];
    if summary.originalQuery.Some? {
      p := SqlQuery(FormatQuery(summary.originalQuery.value));
      sb := Append(sb, parts, p, PartText);
      query := [p];
    } else {
      assert parts + query == parts;
    }
    parts := parts + query;
    var bytesText := FormatBytes(summary.bytes);
    if bytesText.Failure? {
      return Failure(bytesText.error);
    }
    r := FinishDebug(summary, sb, parts, bytesText.value);
  }

  /** The rest of formatQueryDebug once the banner and the SQL section are
      in the buffer: the figures and the assessment. */
  method FinishDebug(summary: QueryExecutionSummary, sb: string, ghost parts: seq<Part>, bytesText: string)
    returns (r: Result<string, Fault>)
    requires summary.timestamp.Some?
    requires parts == [Banner(summary.timestamp.value, summary.statementId, summary.analysisTimeMs)]
                      + (if summary.originalQuery.Some? then [SqlQuery(FormatQuery(summary.originalQuery.value))] else [])
    requires sb == Concat(parts, PartText)
    ensures r == Success(Concat(DebugParts(summary.View(), summary.timestamp.value, ShownQuery(summary.originalQuery),
                                           bytesText, AssessmentText(summary.View())), PartText))
  {
    var p := Figures(summary.View(), bytesText);
    var out := Append(sb, parts, p, PartText);
    var assessment := GeneratePerformanceAssessment(summary);
    var a := Assessment(assessment);
    out := Append(out, parts + [p], a, PartText);
    out := CloseDebug(summary, out, parts + [p] + [a]);
    r := Success(out);
  }

  /** The end of formatQueryDebug: the call stack when it is neither null
      nor empty, then the closing separator. */
  method CloseDebug(summary: QueryExecutionSummary, sb: string, ghost parts: seq<Part>)
    returns (out: string)
    requires sb == Concat(parts, PartText)
    ensures out == Concat(parts + (if ShowsStack(summary.stackTrace) then [CallStack(summary.stackTrace.value)] else [])
                          + [Closing], PartText)
  {
    ghost var stack: seq<Part> := [];
    out := sb;
    if summary.stackTrace.Some? && summary.stackTrace.value != [] {
      var p := CallStack(summary.stackTrace.value);
      out := Append(out, parts, p, PartText);
      stack := [p];
    } else {
      assert parts + stack == parts;
    }
    out := Append(out, parts + stack, Closing, PartText);
  }

  /** The report can be printed unless the timestamp is null (a
      NullPointerException) or the byte count reaches 1024^5 (an index past
      the units array). */
  lemma DebugReportSucceeds(s: Summary)
    ensures DebugReport(s).Success? <==> s.timestamp.Some? && s.bytes < Pow1024(5)
    ensures s.timestamp.None? ==> DebugReport(s) == Failure(NullPointer)
    ensures s.timestamp.Some? && s.bytes >= Pow1024(5) ==> DebugReport(s) == Failure(IndexOutOfBounds)
  {
    FormatBytesPromise(s.bytes);
  }

  /** The sections of the report: the banner first and the closing
      separator last; the SQL section exactly when there is a query to
      show, second; the figures always, followed directly by the
      assessment; the call stack exactly when it is neither null nor empty,
      after the assessment. */
  lemma DebugSections(s: Summary, t: DateTime, shown: Option<string>, bytesText: string, assessment: string)
    ensures var ps := DebugParts(s, t, shown, bytesText, assessment);
            var q := if shown.Some? then 1 else 0;
            var st := if ShowsStack(s.stackTrace) then 1 else 0;
            && |ps| == 4 + q + st
            && ps[0].Banner? && ps[|ps| - 1] == Closing
            && (shown.Some? ==> ps[1] == SqlQuery(shown.value))
            && ps[1 + q] == Figures(s, bytesText)
            && ps[2 + q] == Assessment(assessment)
            && (ShowsStack(s.stackTrace) ==> ps[3 + q] == CallStack(s.stackTrace.value))
            && (forall k :: 0 <= k < |ps| && ps[k].SqlQuery? ==> k == 1 && shown.Some?)
            && (forall k :: 0 <= k < |ps| && ps[k].CallStack? ==> k == 3 + q && ShowsStack(s.stackTrace))
  {
    var query := if shown.Some? then [SqlQuery(shown.value)] else [];
    var stack := if ShowsStack(s.stackTrace) then [CallStack(s.stackTrace.value)] else [];
    var head := [Banner(t, s.statementId, s.analysisTimeMs)] + query;
    var mid := [Figures(s, bytesText)] + [Assessment(assessment)];
    var ps := DebugParts(s, t, shown, bytesText, assessment);
    assert ps == head + mid + stack + [Closing];
    assert forall k :: 0 <= k < |head| ==> ps[k] == head[k];
    assert forall k :: |head| <= k < |head| + 2 ==> ps[k] == mid[k - |head|];
    assert forall k :: |head| + 2 <= k < |ps| - 1 ==> ps[k] == stack[k - |head| - 2];
  }

  /** The SQL section is shown exactly when the query is not null, on one
      single-spaced, trimmed line. */
  lemma ShownQueryShape(query: Option<string>)
    ensures ShownQuery(query).Some? <==> query.Some?
    ensures ShownQuery(query).Some? ==>
              var shown := ShownQuery(query).value;
              '\n' !in shown && SingleSpaced(shown) && TrimStable(shown)
  {
    if query.Some? {
      FormatQueryShape(query.value);
    }
  }
}
