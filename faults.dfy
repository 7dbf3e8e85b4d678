/** The exceptions the modelled Java code can raise or catch. */
module Faults {

  /** The statements the analyzers issue against the database. */
  datatype DbOp =
    | Connect      // DataSource.getConnection
    | Explain      // EXPLAIN PLAN SET STATEMENT_ID = ... FOR ...
    | Display      // SELECT * FROM TABLE(DBMS_XPLAN.DISPLAY(...))
    | ReadPlan     // SELECT ... FROM PLAN_TABLE WHERE STATEMENT_ID = ? ORDER BY ID
    | ReadParent   // SELECT ... FROM PLAN_TABLE WHERE STATEMENT_ID = ? AND ID = 0
    | Delete       // DELETE FROM PLAN_TABLE WHERE STATEMENT_ID = ?

  datatype Fault =
    | NumberFormat          // NumberFormatException
    | NullPointer           // NullPointerException
    | IndexOutOfBounds      // ArrayIndexOutOfBoundsException
    | Sql(op: DbOp)         // SQLException raised by the database for `op`
}
