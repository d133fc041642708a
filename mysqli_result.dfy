/** `VV\Db\Mysqli\Result`: fetch-mode mapping and row iteration over a native statement. */
module MysqliResult {
  import opened Base
  import opened PhpValues
  import opened DriverTypes
  import Native

  /** The mysqli extension's fetch-mode constants. */
  const MYSQLI_ASSOC: bv64 := 1
  const MYSQLI_NUM: bv64 := 2

  /**
   * The fetch mode as `getIterator` computes it: `FETCH_NUM` also adds
   * `MYSQLI_ASSOC`. `fetchAssoc` and `fetchNum` are the library's `Db::FETCH_ASSOC`
   * and `Db::FETCH_NUM`.
   */
  function FetchModeAsWritten(flags: bv64, fetchAssoc: bv64, fetchNum: bv64): (m: bv64)
    ensures m == 0 || m == MYSQLI_ASSOC
    ensures m == MYSQLI_ASSOC <==> flags & fetchAssoc != 0 || flags & fetchNum != 0
  {
    var m1: bv64 := if flags & fetchAssoc != 0 then 0 | MYSQLI_ASSOC else 0;
    if flags & fetchNum != 0 then m1 | MYSQLI_ASSOC else m1
  }

  /** As written, a positional-only request still fetches associatively. */
  lemma PositionalFetchIsAssociative(flags: bv64, fetchAssoc: bv64, fetchNum: bv64)
    requires flags & fetchNum != 0 && flags & fetchAssoc == 0
    ensures FetchModeAsWritten(flags, fetchAssoc, fetchNum) & MYSQLI_NUM == 0
    ensures FetchModeAsWritten(flags, fetchAssoc, fetchNum) == MYSQLI_ASSOC
  {
  }

  /** The fetch mode with `FETCH_NUM` mapped to `MYSQLI_NUM`, as evidently intended. */
  function FetchMode(flags: bv64, fetchAssoc: bv64, fetchNum: bv64): (m: bv64)
    ensures m & MYSQLI_ASSOC != 0 <==> flags & fetchAssoc != 0
    ensures m & MYSQLI_NUM != 0 <==> flags & fetchNum != 0
    ensures m & !(MYSQLI_ASSOC | MYSQLI_NUM) == 0
    ensures m == 0 <==> flags & fetchAssoc == 0 && flags & fetchNum == 0
  {
    var m1: bv64 := if flags & fetchAssoc != 0 then 0 | MYSQLI_ASSOC else 0;
    if flags & fetchNum != 0 then m1 | MYSQLI_NUM else m1
  }

  /** The two mappings agree except when `FETCH_NUM` is requested. */
  lemma FetchModesAgreeWithoutNum(flags: bv64, fetchAssoc: bv64, fetchNum: bv64)
    ensures flags & fetchNum == 0 <==>
            FetchMode(flags, fetchAssoc, fetchNum) == FetchModeAsWritten(flags, fetchAssoc, fetchNum) &&
            FetchMode(flags, fetchAssoc, fetchNum) & MYSQLI_NUM == 0
  {
  }

  /** What `getIterator` produces: the native fetch mode and the rows it yields. */
  datatype Iteration = Rows(mode: bv64, rows: seq<PhpValue>) | IterationFailed(e: Exception)

  class Result {
    const stmt: Native.Stmt

    constructor (stmt: Native.Stmt)
      ensures this.stmt == stmt
    {
      this.stmt := stmt;
    }

    /**
     * `getIterator`: fails before yielding anything when the statement was closed,
     * when `get_result` fails, or when the fetch mode is 0 (`fetch_array` rejects it);
     * otherwise yields the fetched rows in native order up to the first falsy fetch.
     */
    method GetIterator(flags: bv64, fetchAssoc: bv64, fetchNum: bv64) returns (r: Iteration)
      ensures Native.Call.Close in stmt.calls ==> r == IterationFailed(ClosedStatement("get_result"))
      ensures Native.Call.Close !in stmt.calls && stmt.resultSet.None? ==>
                r == IterationFailed(RuntimeException("get_result error", 0, None))
      ensures Native.Call.Close !in stmt.calls && stmt.resultSet.Some? &&
              FetchMode(flags, fetchAssoc, fetchNum) == 0 ==>
                r == IterationFailed(ValueError("fetch_array"))
      ensures r.Rows? <==> Native.Call.Close !in stmt.calls && stmt.resultSet.Some? &&
                           FetchMode(flags, fetchAssoc, fetchNum) != 0
      ensures r.Rows? ==> r.mode == FetchMode(flags, fetchAssoc, fetchNum)
      ensures r.Rows? ==> r.rows <= stmt.resultSet.value
      ensures r.Rows? ==> forall k :: 0 <= k < |r.rows| ==> Truthy(r.rows[k])
      ensures r.Rows? ==> |r.rows| == |stmt.resultSet.value| || !Truthy(stmt.resultSet.value[|r.rows|])
    {
      if Native.Call.Close in stmt.calls {
        return IterationFailed(ClosedStatement("get_result"));
      }
      var res := stmt.resultSet;
      if res.None? {
        return IterationFailed(RuntimeException("get_result error", 0, None));
      }
      var fetches := res.value;

      var myFlags: bv64 := 0;
      if flags & fetchAssoc != 0 {
        myFlags := myFlags | MYSQLI_ASSOC;
      }
      if flags & fetchNum != 0 {
        myFlags := myFlags | MYSQLI_NUM;
      }
      if myFlags == 0 {
        return IterationFailed(ValueError("fetch_array"));
      }

      var rows: seq<PhpValue> := [];
      var i := 0;
      while i < |fetches| && Truthy(fetches[i])
        invariant 0 <= i <= |fetches|
        invariant rows == fetches[..i]
        invariant forall k :: 0 <= k < i ==> Truthy(fetches[k])
      {
        rows := rows + [fetches[i]];
        i := i + 1;
      }
      r := Rows(myFlags, rows);
    }

    /** `getInsertedId`: the native handle's `insert_id`. */
    method GetInsertedId() returns (id: Native.InsertId)
      ensures id == stmt.insertId
    {
      id := stmt.insertId;
    }

    /** `getAffectedRows`: the native handle's `affected_rows`. */
    method GetAffectedRows() returns (n: int)
      ensures n == stmt.affectedRows
    {
      n := stmt.affectedRows;
    }

    /** `close`: there is nothing to release; the native handle is left as it is. */
    method Close()
      ensures stmt.calls == old(stmt.calls)
    {
    }
  }
}
