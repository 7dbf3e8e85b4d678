/** QueryExecutionPlan and its nested ExecutionStep: mutable records that
    the analyzer fills in through setters. Java null is None. */
module ExecutionPlan {
  import opened Wrappers

  /** The field values of one ExecutionStep. */
  datatype Step = Step(
    id: int,
    operation: Option<string>,
    objectName: Option<string>,
    cost: real,
    cardinality: int,
    accessPredicates: Option<string>,
    filterPredicates: Option<string>)

  /** What a freshly constructed ExecutionStep holds: Java's field defaults. */
  const NewStep: Step := Step(0, None, None, 0.0, 0, None, None)

  /** QueryExecutionPlan.ExecutionStep: every field has a setter. */
  class ExecutionStep {
    var id: int
    var operation: Option<string>
    var objectName: Option<string>
    var cost: real
    var cardinality: int
    var accessPredicates: Option<string>
    var filterPredicates: Option<string>

    /** The getters, read together. */
    function Value(): Step
      reads this
    {
      Step(id, operation, objectName, cost, cardinality, accessPredicates, filterPredicates)
    }

    constructor ()
      ensures Value() == NewStep
    {
      id := 0;
      operation := None;
      objectName := None;
      cost := 0.0;
      cardinality := 0;
      accessPredicates := None;
      filterPredicates := None;
    }

    method SetId(v: int)
      modifies this
      ensures Value() == old(Value()).(id := v)
    {
      id := v;
    }

    method SetOperation(v: Option<string>)
      modifies this
      ensures Value() == old(Value()).(operation := v)
    {
      operation := v;
    }

    method SetObjectName(v: Option<string>)
      modifies this
      ensures Value() == old(Value()).(objectName := v)
    {
      objectName := v;
    }

    method SetCost(v: real)
      modifies this
      ensures Value() == old(Value()).(cost := v)
    {
      cost := v;
    }

    method SetCardinality(v: int)
      modifies this
      ensures Value() == old(Value()).(cardinality := v)
    {
      cardinality := v;
    }

    method SetAccessPredicates(v: Option<string>)
      modifies this
      ensures Value() == old(Value()).(accessPredicates := v)
    {
      accessPredicates := v;
    }

    method SetFilterPredicates(v: Option<string>)
      modifies this
      ensures Value() == old(Value()).(filterPredicates := v)
    {
      filterPredicates := v;
    }
  }

  /** The field values of a QueryExecutionPlan; `steps` is None while the
      list is still null. */
  datatype Plan = Plan(
    originalQuery: Option<string>,
    steps: Option<seq<Step>>,
    totalCost: real,
    executionTime: int,
    stackTrace: Option<string>)

  /** QueryExecutionPlan: the constructor stores the query, everything else
      starts at Java's defaults and changes through the setters. */
  class QueryExecutionPlan {
    var originalQuery: Option<string>
    var steps: Option<seq<Step>>
    var totalCost: real
    var executionTime: int
    var stackTrace: Option<string>

    function View(): Plan
      reads this
    {
      Plan(originalQuery, steps, totalCost, executionTime, stackTrace)
    }

    constructor (query: Option<string>)
      ensures View() == Plan(query, None, 0.0, 0, None)
    {
      originalQuery := query;
      steps := None;
      totalCost := 0.0;
      executionTime := 0;
      stackTrace := None;
    }

    method SetOriginalQuery(v: Option<string>)
      modifies this
      ensures View() == old(View()).(originalQuery := v)
    {
      originalQuery := v;
    }

    method SetSteps(v: Option<seq<Step>>)
      modifies this
      ensures View() == old(View()).(steps := v)
    {
      steps := v;
    }

    method SetTotalCost(v: real)
      modifies this
      ensures View() == old(View()).(totalCost := v)
    {
      totalCost := v;
    }

    method SetExecutionTime(v: int)
      modifies this
      ensures View() == old(View()).(executionTime := v)
    {
      executionTime := v;
    }

    method SetStackTrace(v: Option<string>)
      modifies this
      ensures View() == old(View()).(stackTrace := v)
    {
      stackTrace := v;
    }
  }
}
