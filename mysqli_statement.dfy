/** `VV\Db\Mysqli\Statement`: bind, LOB streaming, execute and close on one native handle. */
module MysqliStatement {
  import opened Base
  import opened PhpValues
  import opened DriverTypes
  import opened Native
  import opened Binding
  import MysqliDriver
  import MysqliResult

  /** How `exec` ends: with a `Result` over the same handle, or by throwing. */
  datatype ExecOutcome = Executed(result: MysqliResult.Result) | ExecThrew(e: Exception)

  class Statement {
    /** The native handle; null once closed. */
    var stmt: Stmt?
    const mysqli: Connection
    /** The query text (`QueryInfo::getString()`). */
    const query: string
    /** The LOB table of the last non-empty `bind`; null on a fresh statement. */
    var blobs: Option<seq<Lob>>

    /** The LOB table's keys are positions in increasing order. */
    ghost predicate Valid()
      reads this
    {
      blobs.Some? ==> Ascending(blobs.value)
    }

    constructor (stmt: Stmt, mysqli: Connection, query: string)
      ensures Valid()
      ensures this.stmt == stmt && this.mysqli == mysqli && this.query == query
      ensures blobs == None
    {
      this.stmt := stmt;
      this.mysqli := mysqli;
      this.query := query;
      blobs := None;
    }

    /** The native handle as a frame: empty once closed. */
    function Handle(): set<Stmt>
      reads this
    {
      if stmt == null then {} else {stmt}
    }

    /** `setFetchSize`: unsupported, whatever the size and the state. */
    method SetFetchSize(size: int) returns (r: Outcome)
      ensures r == Threw(LogicException("Set fetch size is not supported for this driver"))
    {
      r := Threw(LogicException("Set fetch size is not supported for this driver"));
    }

    /** `createMysqliError`: the connection's last error, with this statement's query. */
    function CreateMysqliError(): (r: Option<MysqliError>)
      reads mysqli
      ensures r.None? <==> mysqli.errno == 0
      ensures r.Some? ==> r.value.code == mysqli.errno && StringTruthy(r.value.message)
      ensures r.Some? && StringTruthy(query) ==> r.value.message == mysqli.error + "\n" + query + "\n"
      ensures r.Some? && !StringTruthy(query) ==>
                r.value.message == if StringTruthy(mysqli.error) then mysqli.error else MysqliDriver.FALLBACK_MESSAGE
    {
      MysqliDriver.CreateMysqliError(mysqli.errno, mysqli.error, Some(query))
    }

    /**
     * `bind`: an empty list does nothing. Otherwise the LOB table is rebuilt from
     * the list, and one `bind_param` call is made with the bind-type string and the
     * values; `bindAccepted` is what the native call returns.
     */
    method Bind(params: seq<Arg>, bindAccepted: bool) returns (r: Outcome)
      requires Valid()
      modifies this`blobs, Handle()`calls
      ensures Valid()
      ensures params == [] ==> r == Normal && blobs == old(blobs)
      ensures params == [] && stmt != null ==> stmt.calls == old(stmt.calls)
      ensures params != [] ==> blobs == Some(LobTable(params))
      ensures params != [] && stmt == null ==> r == Threw(NullCall("bind_param"))
      ensures params != [] && stmt != null ==>
                stmt.calls == old(stmt.calls) + [BindParam(BindTypes(params), BindValues(params))]
      ensures params != [] && stmt != null ==>
                r == if bindAccepted then Normal
                     else Threw(RuntimeException("Bind params error", 0, CreateMysqliError()))
    {
      r := Normal;
      if params != [] {
        var bindTypes: string := "";
        blobs := Some([]);
        var i := 0;
        var paramsForBind: seq<PhpValue> := [];
        while i < |params|
          invariant 0 <= i <= |params|
          invariant bindTypes == BindTypes(params[..i])
          invariant paramsForBind == BindValues(params[..i])
          invariant blobs == Some(LobTable(params[..i]))
          invariant stmt != null ==> stmt.calls == old(stmt.calls)
        {
          var t, value, lob := ClassifyParam(params[i], i);
          if lob.Some? {
            blobs := Some(blobs.value + [lob.value]);
          }
          assert params[..i + 1][..i] == params[..i];
          bindTypes := bindTypes + [t];
          i := i + 1;
          paramsForBind := paramsForBind + [value];
        }
        assert params[..i] == params;
        LobTableEntries(params);
        if stmt == null {
          return Threw(NullCall("bind_param"));
        }
        stmt.calls := stmt.calls + [BindParam(bindTypes, paramsForBind)];
        if !bindAccepted {
          r := Threw(RuntimeException("Bind params error", 0, CreateMysqliError()));
        }
      }
    }

    /**
     * `exec`: every part of every truthy LOB entry is sent, in table order, and then
     * `execute` is called once; `executeOk` is what the native call returns.
     */
    method Exec(executeOk: bool) returns (r: ExecOutcome)
      requires Valid()
      modifies Handle()`calls
      ensures var sends := SendEvents(if blobs.Some? then blobs.value else []);
              && (stmt == null ==>
                    r == ExecThrew(NullCall(if sends != [] then "send_long_data" else "execute")))
              && (stmt != null ==> stmt.calls == old(stmt.calls) + sends + [Execute])
              && (forall i, j :: 0 <= i < j < |sends| ==> sends[i].nr <= sends[j].nr)
      ensures stmt != null && !executeOk ==> r == ExecThrew(SqlSyntaxError(CreateMysqliError()))
      ensures stmt != null && executeOk ==> r.Executed? && fresh(r.result) && r.result.stmt == stmt
    {
      var entries := if blobs.Some? then blobs.value else [];
      SendsInPositionOrder(entries);
      if stmt == null {
        var sends := SendEvents(entries);
        return ExecThrew(NullCall(if sends != [] then "send_long_data" else "execute"));
      }
      var handle: Stmt := stmt;
      if blobs.Some? && blobs.value != [] {
        SendLobs(handle, entries);
      }
      handle.calls := handle.calls + [Execute];
      if !executeOk {
        return ExecThrew(SqlSyntaxError(CreateMysqliError()));
      }
      var result := new MysqliResult.Result(handle);
      r := Executed(result);
    }

    /** `close`: closes the native handle and drops it; on a closed statement it throws. */
    method Close() returns (r: Outcome)
      modifies this`stmt, Handle()`calls
      ensures old(stmt) == null ==> r == Threw(NullCall("close")) && stmt == null
      ensures old(stmt) != null ==> r == Normal && stmt == null &&
                                    old(stmt).calls == old(stmt.calls) + [Call.Close]
    {
      if stmt == null {
        return Threw(NullCall("close"));
      }
      stmt.calls := stmt.calls + [Call.Close];
      stmt := null;
      r := Normal;
    }
  }
}
