/** One row of the DBMS_XPLAN.DISPLAY table,
      | Id | Operation | Name | Rows | Bytes | Cost (%CPU) | Time |
    read into an execution step, or rejected. */
module PlanLines {
  import opened Wrappers
  import opened JavaText
  import opened JavaNumbers
  import opened NumericNotation
  import opened ExecutionPlan

  /** The Id column: a blank column or a lone "*" rejects the row; otherwise
      every '*' (the predicate marker) is removed and the rest must be an
      int. */
  function ParseStepId(field: string): (r: Option<int>)
    ensures r.Some? ==> IntMin <= r.value <= IntMax
    ensures Trim(field) == [] || Trim(field) == "*" ==> r.None?
  {
    var idStr := Trim(field);
    if idStr == "*" || idStr == [] then None
    else
      match ParseInteger(Trim(RemoveAll(idStr, '*')), IntMin, IntMax)
      case Success(v) => Some(v)
      case Failure(_) => None
  }

  /** parseNumericValue with its NumberFormatException caught: 0. */
  function CountOrZero(text: string): (n: int)
    ensures LongMin <= n <= LongMax
  {
    match ParseNumericValue(Some(text))
    case Success(v) => v
    case Failure(_) => 0
  }

  /** The Rows column: blank is the default 0, otherwise its magnitude. */
  function RowsField(field: string): (n: int)
    ensures LongMin <= n <= LongMax
  {
    var t := Trim(field);
    if t == [] then 0 else CountOrZero(t)
  }

  /** The Cost (%CPU) column: the magnitude of its first token ("1622" in
      "1622 (1%)"), or the default 0. */
  function CostField(field: string): (x: real)
    ensures LongMin as real <= x <= LongMax as real
  {
    var t := Trim(field);
    if t == [] then 0.0 else CountOrZero(FirstToken(t)) as real
  }

  /** The step a row with an accepted id describes. */
  function StepOfFields(id: int, parts: seq<string>): Step
    requires |parts| >= 7
  {
    var name := Trim(parts[3]);
    Step(id, Some(Trim(parts[2])), if name == [] then None else Some(name),
         CostField(parts[6]), RowsField(parts[4]), None, None)
  }

  /** parsePlanLine: the row split at '|' with Java's split() semantics; at
      least seven fields and an accepted id give a step. */
  function ParsePlanLine(line: string): (r: Option<Step>)
    ensures |JavaSplit(line, '|')| < 7 ==> r.None?
    ensures r.Some? ==>
      && IntMin <= r.value.id <= IntMax
      && r.value.operation.Some? && TrimStable(r.value.operation.value)
      && (r.value.objectName.Some? ==>
            r.value.objectName.value != [] && TrimStable(r.value.objectName.value))
      && LongMin <= r.value.cardinality <= LongMax
      && LongMin as real <= r.value.cost <= LongMax as real
      && r.value.accessPredicates.None? && r.value.filterPredicates.None?
  {
    var parts := JavaSplit(line, '|');
    if |parts| < 7 then None
    else
      match ParseStepId(parts[1])
      case None => None
      case Some(id) => Some(StepOfFields(id, parts))
  }

  /** A row splits into its fields and is accepted when its id is. */
  lemma ParsePlanLineOfParts(line: string, parts: seq<string>, id: int)
    requires JavaSplit(line, '|') == parts && |parts| >= 7
    requires ParseStepId(parts[1]) == Some(id)
    ensures ParsePlanLine(line) == Some(StepOfFields(id, parts))
  {
  }

  /** The id column, a text without surrounding blanks padded by one blank
      on each side, is accepted once that text, stripped of its stars,
      parses as an int. */
  lemma ParseStepIdOf(idStr: string, digits: string, n: int)
    requires TrimStable(idStr) && idStr != [] && idStr != "*"
    requires Trim(RemoveAll(idStr, '*')) == digits
    requires ParseInteger(digits, IntMin, IntMax) == Success(n)
    ensures ParseStepId(" " + idStr + " ") == Some(n)
  {
    assert IsBlank(" ");
    TrimPadded(" ", idStr, " ");
  }

  /** The id column of a rendered row: an optional '*' marker before the
      decimal id, padded by blanks. "*2" reads as 2. */
  lemma StepIdOfRendered(starred: bool, n: int)
    requires IntMin <= n <= IntMax
    ensures ParseStepId(" " + IdText(starred, n) + " ") == Some(n)
  {
    IdTextShape(starred, n);
    ParseIntText(n, IntMin, IntMax);
    ParseStepIdOf(IdText(starred, n), IntText(n), n);
  }

  /** The id text ends in a digit, is more than a lone '*', and is the
      decimal id once its '*' is removed. */
  lemma IdTextShape(starred: bool, n: int)
    ensures var idStr := IdText(starred, n);
            && idStr != [] && TrimStable(idStr) && idStr != "*"
            && Trim(RemoveAll(idStr, '*')) == IntText(n)
  {
    var mark := if starred then "*" else "";
    var t := IntText(n);
    var idStr := IdText(starred, n);
    IntTextShape(n);
    assert TrimStable(idStr) by {
      assert idStr[|idStr| - 1] == t[|t| - 1];
    }
    assert idStr != "*" by {
      assert |idStr| >= 2 || idStr[0] == t[0];
    }
    assert Trim(RemoveAll(idStr, '*')) == t by {
      RemoveAllConcat(mark, t, '*');
      assert RemoveAll(mark, '*') == [];
      TrimOfStable(t);
    }
  }

  /** The Rows column of a rendered row reads back as the count. */
  lemma RowsOfRendered(n: int)
    requires LongMin <= n <= LongMax
    ensures RowsField(" " + IntText(n) + " ") == n
  {
    var t := IntText(n);
    IntTextShape(n);
    TrimPadded(" ", t, " ");
    ParseNumericOfIntText(n);
  }

  /** The Cost column is its first token's magnitude once trimming leaves
      something. */
  lemma CostFieldOf(field: string, t: string, token: string, c: int)
    requires Trim(field) == t && t != [] && FirstToken(t) == token
    requires ParseNumericValue(Some(token)) == Success(c)
    ensures CostField(field) == c as real
  {
  }

  /** The Cost column of a rendered row, "c (p%)", reads back as c. */
  lemma CostOfRendered(c: int, cpu: string)
    requires LongMin <= c <= LongMax
    requires cpu != [] && TrimStable(cpu)
    ensures CostField(" " + IntText(c) + " " + cpu + " ") == c as real
  {
    var t := IntText(c);
    var body := t + " " + cpu;
    CostColumnText(c, cpu);
    ParseNumericOfIntText(c);
    CostFieldOf(" " + t + " " + cpu + " ", body, t, c);
  }

  /** The Cost column "c (p%)", padded, trims to itself and starts with c. */
  lemma CostColumnText(c: int, cpu: string)
    requires cpu != [] && TrimStable(cpu)
    ensures var t := IntText(c);
            Trim(" " + t + " " + cpu + " ") == t + " " + cpu && FirstToken(t + " " + cpu) == t
  {
    var t := IntText(c);
    IntTextShape(c);
    CostBodyStable(t, cpu);
    assert IsBlank(" ");
    TrimPadded(" ", t + " " + cpu, " ");
    CostBodyToken(t, cpu);
  }

  /** "number cpu" has no padding of its own, and the padded field is that
      text between two blanks. */
  lemma CostBodyStable(t: string, cpu: string)
    requires t != [] && TrimStable(t) && cpu != [] && TrimStable(cpu)
    ensures TrimStable(t + " " + cpu)
    ensures " " + t + " " + cpu + " " == " " + (t + " " + cpu) + " "
  {
    var body := t + " " + cpu;
    assert body[0] == t[0];
    assert body[|body| - 1] == cpu[|cpu| - 1];
  }

  lemma CostBodyToken(t: string, cpu: string)
    requires forall i :: 0 <= i < |t| ==> !IsSpace(t[i])
    ensures FirstToken(t + " " + cpu) == t
  {
    assert t + " " + cpu == t + (" " + cpu);
    FirstTokenConcat(t, " " + cpu);
  }

  /** The Id column's text: the decimal id, after a '*' when the step has
      predicates. */
  function IdText(starred: bool, id: int): string {
    (if starred then "*" else "") + IntText(id)
  }

  /** The fields of a rendered row: a leading empty field, the seven
      blank-padded columns and the empty field after the closing '|'. */
  function RenderedFields(idText: string, op: string, name: string, rows: int, bytes: string,
                          cost: int, cpu: string, time: string): seq<string>
  {
    ["", " " + idText + " ", " " + op + " ", " " + name + " ", " " + IntText(rows) + " ",
     " " + bytes + " ", " " + IntText(cost) + " " + cpu + " ", " " + time + " "]
  }

  /** A DBMS_XPLAN table row built from its columns. */
  function RenderPlanLine(starred: bool, id: int, op: string, name: string, rows: int,
                          bytes: string, cost: int, cpu: string, time: string): string
  {
    var idText := IdText(starred, id);
    Join(RenderedFields(idText, op, name, rows, bytes, cost, cpu, time) + [""], '|')
  }

  /** What the columns of a rendered row may hold: no '|' anywhere, and no
      padding of their own in the operation, name and CPU columns. */
  predicate Renderable(op: string, name: string, bytes: string, cpu: string, time: string) {
    && '|' !in op && '|' !in name && '|' !in bytes && '|' !in cpu && '|' !in time
    && TrimStable(op) && TrimStable(name) && cpu != [] && TrimStable(cpu)
  }

  /** Reading a rendered row gives back the step it was rendered from: the
      id (with or without the '*' marker), the operation, the name (None
      when blank), the row count and the cost. */
  lemma ParseRenderedLine(starred: bool, id: int, op: string, name: string, rows: int,
                          bytes: string, cost: int, cpu: string, time: string)
    requires IntMin <= id <= IntMax
    requires LongMin <= rows <= LongMax && LongMin <= cost <= LongMax
    requires Renderable(op, name, bytes, cpu, time)
    ensures ParsePlanLine(RenderPlanLine(starred, id, op, name, rows, bytes, cost, cpu, time))
            == Some(Step(id, Some(op), if name == [] then None else Some(name),
                         cost as real, rows, None, None))
  {
    var fs := RenderedFields(IdText(starred, id), op, name, rows, bytes, cost, cpu, time);
    var line := RenderPlanLine(starred, id, op, name, rows, bytes, cost, cpu, time);
    calc {
      ParsePlanLine(line);
      { RenderedSplit(starred, id, op, name, rows, bytes, cost, cpu, time);
        StepIdOfRendered(starred, id);
        ParsePlanLineOfParts(line, fs, id); }
      Some(StepOfFields(id, fs));
      { StepOfRendered(fs, id, op, name, rows, cost, cpu); }
      Some(Step(id, Some(op), if name == [] then None else Some(name), cost as real, rows, None, None));
    }
  }

  lemma RenderedSplit(starred: bool, id: int, op: string, name: string, rows: int,
                      bytes: string, cost: int, cpu: string, time: string)
    requires Renderable(op, name, bytes, cpu, time)
    ensures JavaSplit(RenderPlanLine(starred, id, op, name, rows, bytes, cost, cpu, time), '|')
            == RenderedFields(IdText(starred, id), op, name, rows, bytes, cost, cpu, time)
  {
    var fs := RenderedFields(IdText(starred, id), op, name, rows, bytes, cost, cpu, time);
    RenderedFieldsNoBar(starred, id, op, name, rows, bytes, cost, cpu, time);
    JavaSplitOfJoinTrailing(fs, '|');
  }

  /** No column of a rendered row holds a '|'. */
  lemma RenderedFieldsNoBar(starred: bool, id: int, op: string, name: string, rows: int,
                            bytes: string, cost: int, cpu: string, time: string)
    requires Renderable(op, name, bytes, cpu, time)
    ensures var fs := RenderedFields(IdText(starred, id), op, name, rows, bytes, cost, cpu, time);
            forall k :: 0 <= k < |fs| ==> '|' !in fs[k]
  {
    var idText := IdText(starred, id);
    var fs := RenderedFields(idText, op, name, rows, bytes, cost, cpu, time);
    assert '|' !in fs[1] && '|' !in fs[4] && '|' !in fs[6] by {
      NoBarInNumbers(starred, id, rows, cost);
      PaddedNoBar(idText);
      PaddedNoBar(IntText(rows));
    }
    assert '|' !in fs[2] && '|' !in fs[3] && '|' !in fs[5] && '|' !in fs[7] by {
      PaddedNoBar(op);
      PaddedNoBar(name);
      PaddedNoBar(bytes);
      PaddedNoBar(time);
    }
    assert forall k :: 0 <= k < |fs| ==> '|' !in fs[k];
  }

  lemma NoBarInNumbers(starred: bool, id: int, rows: int, cost: int)
    ensures '|' !in IdText(starred, id) && '|' !in IntText(rows) && '|' !in IntText(cost)
  {
    IntTextShape(id);
    IntTextShape(rows);
    IntTextShape(cost);
  }

  lemma PaddedNoBar(x: string)
    requires '|' !in x
    ensures '|' !in " " + x + " "
  {
  }

  lemma StepOfRendered(fs: seq<string>, id: int, op: string, name: string, rows: int,
                       cost: int, cpu: string)
    requires |fs| >= 7
    requires fs[2] == " " + op + " " && fs[3] == " " + name + " "
    requires fs[4] == " " + IntText(rows) + " " && fs[6] == " " + IntText(cost) + " " + cpu + " "
    requires TrimStable(op) && TrimStable(name) && cpu != [] && TrimStable(cpu)
    requires LongMin <= rows <= LongMax && LongMin <= cost <= LongMax
    ensures StepOfFields(id, fs)
            == Step(id, Some(op), if name == [] then None else Some(name),
                    cost as real, rows, None, None)
  {
    TrimPadded(" ", op, " ");
    TrimPadded(" ", name, " ");
    RowsOfRendered(rows);
    CostOfRendered(cost, cpu);
  }
}
