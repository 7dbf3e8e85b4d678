/** QueryExecutionSummary: the parent-node figures of one explained
    statement. Java null is None. */
module ExecutionSummary {
  import opened Wrappers
  import opened DateTimes

  /** The field values of a QueryExecutionSummary. */
  datatype Summary = Summary(
    statementId: Option<string>,
    originalQuery: Option<string>,
    cost: real,
    cardinality: int,
    bytes: int,
    cpuCost: real,
    ioCost: real,
    time: int,
    analysisTimeMs: int,
    timestamp: Option<DateTime>,
    stackTrace: Option<string>)

  /** The constructor assigns a random UUID and the current time (both
      passed in here); every other field keeps Java's default. */
  class QueryExecutionSummary {
    var statementId: Option<string>
    var originalQuery: Option<string>
    var cost: real
    var cardinality: int
    var bytes: int
    var cpuCost: real
    var ioCost: real
    var time: int
    var analysisTimeMs: int
    var timestamp: Option<DateTime>
    var stackTrace: Option<string>

    /** The getters, read together. */
    function View(): Summary
      reads this
    {
      Summary(statementId, originalQuery, cost, cardinality, bytes, cpuCost, ioCost,
              time, analysisTimeMs, timestamp, stackTrace)
    }

    constructor (uuid: string, now: DateTime)
      ensures View() == Summary(Some(uuid), None, 0.0, 0, 0, 0.0, 0.0, 0, 0, Some(now), None)
    {
      statementId := Some(uuid);
      originalQuery := None;
      cost := 0.0;
      cardinality := 0;
      bytes := 0;
      cpuCost := 0.0;
      ioCost := 0.0;
      time := 0;
      analysisTimeMs := 0;
      timestamp := Some(now);
      stackTrace := None;
    }

    method SetStatementId(v: Option<string>)
      modifies this
      ensures View() == old(View()).(statementId := v)
    {
      statementId := v;
    }

    method SetOriginalQuery(v: Option<string>)
      modifies this
      ensures View() == old(View()).(originalQuery := v)
    {
      originalQuery := v;
    }

    method SetCost(v: real)
      modifies this
      ensures View() == old(View()).(cost := v)
    {
      cost := v;
    }

    method SetCardinality(v: int)
      modifies this
      ensures View() == old(View()).(cardinality := v)
    {
      cardinality := v;
    }

    method SetBytes(v: int)
      modifies this
      ensures View() == old(View()).(bytes := v)
    {
      bytes := v;
    }

    method SetCpuCost(v: real)
      modifies this
      ensures View() == old(View()).(cpuCost := v)
    {
      cpuCost := v;
    }

    method SetIoCost(v: real)
      modifies this
      ensures View() == old(View()).(ioCost := v)
    {
      ioCost := v;
    }

    method SetTime(v: int)
      modifies this
      ensures View() == old(View()).(time := v)
    {
      time := v;
    }

    method SetAnalysisTimeMs(v: int)
      modifies this
      ensures View() == old(View()).(analysisTimeMs := v)
    {
      analysisTimeMs := v;
    }

    method SetTimestamp(v: Option<DateTime>)
      modifies this
      ensures View() == old(View()).(timestamp := v)
    {
      timestamp := v;
    }

    method SetStackTrace(v: Option<string>)
      modifies this
      ensures View() == old(View()).(stackTrace := v)
    {
      stackTrace := v;
    }
  }
}
