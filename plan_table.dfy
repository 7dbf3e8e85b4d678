/** The database as the analyzers see it: PLAN_TABLE, keyed by statement
    id, and the statements issued against it. Every statement whose kind is
    in `failing` raises an SQLException and changes nothing. */
module PlanTables {
  import opened Wrappers
  import opened Faults

  /** The PLAN_TABLE columns the analyzers read; None is SQL NULL. */
  datatype PlanRow = PlanRow(
    id: int,
    operation: Option<string>,
    objectName: Option<string>,
    cost: Option<real>,
    cardinality: Option<int>,
    bytes: Option<int>,
    cpuCost: Option<real>,
    ioCost: Option<real>,
    time: Option<int>,
    accessPredicates: Option<string>,
    filterPredicates: Option<string>)

  predicate SortedById(rows: seq<PlanRow>) {
    forall i, j :: 0 <= i < j < |rows| ==> rows[i].id <= rows[j].id
  }

  /** Inserts `r` after the rows whose id is not larger. */
  function InsertById(r: PlanRow, rows: seq<PlanRow>): (res: seq<PlanRow>)
    requires SortedById(rows)
    ensures SortedById(res)
    ensures multiset(res) == multiset(rows) + multiset{r}
    ensures |res| == |rows| + 1
    ensures res[0] == r || (rows != [] && res[0] == rows[0])
  {
    if rows == [] || r.id < rows[0].id then [r] + rows
    else
      var tail := InsertById(r, rows[1..]);
      assert rows[0].id <= tail[0].id;
      assert rows == [rows[0]] + rows[1..];
      [rows[0]] + tail
  }

  /** ORDER BY ID: the rows sorted by id, ties in table order. */
  function SortById(rows: seq<PlanRow>): (res: seq<PlanRow>)
    ensures SortedById(res)
    ensures multiset(res) == multiset(rows)
  {
    if rows == [] then []
    else
      var init := rows[..|rows| - 1];
      assert rows == init + [rows[|rows| - 1]];
      InsertById(rows[|rows| - 1], SortById(init))
  }

  /** A row whose id is not below any other id lands at the end. */
  lemma {:induction false} InsertLast(r: PlanRow, rows: seq<PlanRow>)
    requires SortedById(rows)
    requires forall k :: 0 <= k < |rows| ==> rows[k].id <= r.id
    ensures InsertById(r, rows) == rows + [r]
  {
    if rows != [] {
      InsertLast(r, rows[1..]);
      assert rows == [rows[0]] + rows[1..];
    }
  }

  /** Rows that EXPLAIN PLAN already wrote in id order come back in the same
      order. */
  lemma {:induction false} SortOfSorted(rows: seq<PlanRow>)
    requires SortedById(rows)
    ensures SortById(rows) == rows
  {
    if rows != [] {
      var init := rows[..|rows| - 1];
      SortOfSorted(init);
      InsertLast(rows[|rows| - 1], init);
      assert init + [rows[|rows| - 1]] == rows;
    }
  }

  /** The first row, in table order, whose id is `id`. */
  function FirstWithId(rows: seq<PlanRow>, id: int): (r: Option<PlanRow>)
    ensures r.Some? ==> r.value in rows && r.value.id == id
    ensures r.None? ==> forall k :: 0 <= k < |rows| ==> rows[k].id != id
  {
    if rows == [] then None
    else if rows[0].id == id then Some(rows[0])
    else FirstWithId(rows[1..], id)
  }

  class PlanTable {
    /** The rows of every statement id that has any. */
    var rows: map<string, seq<PlanRow>>
    /** The statements that raise an SQLException. */
    const failing: set<DbOp>
    /** The rows EXPLAIN PLAN writes for a SQL text. */
    const optimizer: string -> seq<PlanRow>
    /** What DBMS_XPLAN.DISPLAY prints for a statement's rows, one line per
        result row (None for a NULL line). */
    const display: seq<PlanRow> -> seq<Option<string>>

    /** The rows of statement `sid`, in the order they were written. */
    function Rows(sid: string): seq<PlanRow>
      reads this
    {
      if sid in rows then rows[sid] else []
    }

    constructor (initial: map<string, seq<PlanRow>>, failing: set<DbOp>,
                 optimizer: string -> seq<PlanRow>,
                 display: seq<PlanRow> -> seq<Option<string>>)
      ensures rows == initial && this.failing == failing
      ensures this.optimizer == optimizer && this.display == display
    {
      rows := initial;
      this.failing := failing;
      this.optimizer := optimizer;
      this.display := display;
    }

    /** EXPLAIN PLAN SET STATEMENT_ID = sid FOR sql: appends the plan's
        rows under `sid` and touches no other statement. */
    method Explain(sid: string, sql: string) returns (r: Outcome<Fault>)
      modifies this
      ensures DbOp.Explain in failing ==> r == Fail(Sql(DbOp.Explain)) && rows == old(rows)
      ensures DbOp.Explain !in failing ==>
        r == Pass && rows == old(rows)[sid := old(Rows(sid)) + optimizer(sql)]
    {
      if DbOp.Explain in failing {
        r := Fail(Sql(DbOp.Explain));
      } else {
        rows := rows[sid := Rows(sid) + optimizer(sql)];
        r := Pass;
      }
    }

    /** SELECT * FROM TABLE(DBMS_XPLAN.DISPLAY('PLAN_TABLE', sid, ...)). */
    method Display(sid: string) returns (r: Result<seq<Option<string>>, Fault>)
      ensures DbOp.Display in failing ==> r == Failure(Sql(DbOp.Display))
      ensures DbOp.Display !in failing ==> r == Success(display(Rows(sid)))
    {
      if DbOp.Display in failing {
        r := Failure(Sql(DbOp.Display));
      } else {
        r := Success(display(Rows(sid)));
      }
    }

    /** SELECT ... FROM PLAN_TABLE WHERE STATEMENT_ID = sid ORDER BY ID. */
    method ReadPlan(sid: string) returns (r: Result<seq<PlanRow>, Fault>)
      ensures DbOp.ReadPlan in failing ==> r == Failure(Sql(DbOp.ReadPlan))
      ensures DbOp.ReadPlan !in failing ==>
        r.Success? && SortedById(r.value) && multiset(r.value) == multiset(Rows(sid))
      ensures DbOp.ReadPlan !in failing ==> r == Success(SortById(Rows(sid)))
    {
      if DbOp.ReadPlan in failing {
        r := Failure(Sql(DbOp.ReadPlan));
      } else {
        r := Success(SortById(Rows(sid)));
      }
    }

    /** SELECT ... FROM PLAN_TABLE WHERE STATEMENT_ID = sid AND ID = 0,
        of which only the first row is fetched. */
    method ReadParent(sid: string) returns (r: Result<Option<PlanRow>, Fault>)
      ensures DbOp.ReadParent in failing ==> r == Failure(Sql(DbOp.ReadParent))
      ensures DbOp.ReadParent !in failing ==> r == Success(FirstWithId(Rows(sid), 0))
    {
      if DbOp.ReadParent in failing {
        r := Failure(Sql(DbOp.ReadParent));
      } else {
        r := Success(FirstWithId(Rows(sid), 0));
      }
    }

    /** DELETE FROM PLAN_TABLE WHERE STATEMENT_ID = sid. */
    method Delete(sid: string) returns (r: Outcome<Fault>)
      modifies this
      ensures DbOp.Delete in failing ==> r == Fail(Sql(DbOp.Delete)) && rows == old(rows)
      ensures DbOp.Delete !in failing ==> r == Pass && rows == old(rows) - {sid}
    {
      if DbOp.Delete in failing {
        r := Fail(Sql(DbOp.Delete));
      } else {
        rows := rows - {sid};
        r := Pass;
      }
    }
  }
}
