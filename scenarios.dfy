/**
 * Clients of the `VV\Db\Mysqli` statement that run whole prepare-bind-execute-close
 * sequences on fresh native handles and state the calls the native client sees.
 */
module Scenarios {
  import opened Base
  import opened PhpValues
  import opened DriverTypes
  import opened Native
  import opened Binding
  import MysqliStatement
  import MysqliResult

  /** Two scalars: bind types "is", no LOB, one row affected. */
  method InsertTwoScalars() returns (calls: seq<Call>, bound: Outcome, affected: int)
    ensures calls == [BindParam("is", [PInt(42), PString("hello")]), Execute]
    ensures bound == Normal && affected == 1
  {
    var handle := new Stmt(IdInt(1), 1, None);
    var conn := new Connection(0, "");
    var s := new MysqliStatement.Statement(handle, conn, "INSERT INTO t VALUES (?, ?)");
    var params := [Raw(PInt(42)), Raw(PString("hello"))];
    assert BindTypes(params) == "is";
    assert BindValues(params) == [PInt(42), PString("hello")];
    bound := s.Bind(params, true);
    var e := s.Exec(true);
    assert LobTable(params) == [];
    affected := e.result.GetAffectedRows();
    calls := handle.calls;
  }

  /** One text LOB in two chunks: bind type "b", the chunks queued at position 0 and streamed in order. */
  lemma ChunkedText()
    ensures var params := [Param(Text, PArray([PString("abc"), PString("def")]))];
            && BindTypes(params) == "b"
            && BindValues(params) == [PNull]
            && LobTable(params) == [Lob(0, PArray([PString("abc"), PString("def")]))]
            && SendEvents(LobTable(params)) == [SendLongData(0, PString("abc")), SendLongData(0, PString("def"))]
  {
    var text := PArray([PString("abc"), PString("def")]);
    var params := [Param(Text, text)];
    assert LobTable(params) == [Lob(0, text)] by {
      assert params[..0] == [];
    }
    assert SendEvents([Lob(0, text)]) == SendEvents([]) + LobSends(Lob(0, text));
  }

  /** A LOB-free statement rejected by the server: a syntax error carrying code and query. */
  method RejectedStatement() returns (r: MysqliStatement.ExecOutcome)
    ensures r == MysqliStatement.ExecThrew(SqlSyntaxError(Some(MysqliError("syntax error\nSELEC 1\n", 1064))))
  {
    var handle := new Stmt(IdInt(0), 0, None);
    var conn := new Connection(1064, "syntax error");
    var s := new MysqliStatement.Statement(handle, conn, "SELEC 1");
    var _ := s.Bind([], true);
    r := s.Exec(false);
    assert "syntax error" + "\n" + "SELEC 1" + "\n" == "syntax error\nSELEC 1\n";
  }

  /** No parameters: no `bind_param` call, and execute still runs. */
  method NoParameters() returns (calls: seq<Call>, iteration: MysqliResult.Iteration)
    ensures calls == [Execute]
    ensures iteration.Rows? && iteration.rows == [PArray([PInt(1)])]
  {
    var handle := new Stmt(IdInt(0), 0, Some([PArray([PInt(1)]), PNull, PArray([PInt(2)])]));
    var conn := new Connection(0, "");
    var s := new MysqliStatement.Statement(handle, conn, "SELECT 1");
    var _ := s.Bind([], true);
    var e := s.Exec(true);
    calls := handle.calls;
    iteration := e.result.GetIterator(1, 1, 2);
    var fetched := [PArray([PInt(1)]), PNull, PArray([PInt(2)])];
    assert Truthy(fetched[0]) && !Truthy(fetched[1]);
    assert |iteration.rows| == 1;
    assert iteration.rows == fetched[..1];
  }

  /** Closing twice: the second call reaches `close()` on null and throws. */
  method CloseTwice() returns (first: Outcome, second: Outcome, calls: seq<Call>)
    ensures first == Normal && second == Threw(NullCall("close"))
    ensures calls == [Call.Close]
  {
    var handle := new Stmt(IdInt(0), 0, None);
    var conn := new Connection(0, "");
    var s := new MysqliStatement.Statement(handle, conn, "SELECT 1");
    first := s.Close();
    second := s.Close();
    calls := handle.calls;
  }

  /** Iterating a result whose statement has been closed fails at `get_result`. */
  method IterateAfterClose() returns (iteration: MysqliResult.Iteration)
    ensures iteration == MysqliResult.IterationFailed(ClosedStatement("get_result"))
  {
    var handle := new Stmt(IdInt(0), 0, Some([PArray([PInt(1)])]));
    var conn := new Connection(0, "");
    var s := new MysqliStatement.Statement(handle, conn, "SELECT 1");
    var e := s.Exec(true);
    var _ := s.Close();
    iteration := e.result.GetIterator(1, 1, 2);
  }

  /** Requesting neither associative nor positional rows: `fetch_array(0)` is rejected. */
  method IterateWithoutMode() returns (iteration: MysqliResult.Iteration)
    ensures iteration == MysqliResult.IterationFailed(ValueError("fetch_array"))
  {
    var handle := new Stmt(IdInt(0), 0, Some([PArray([PInt(1)])]));
    var conn := new Connection(0, "");
    var s := new MysqliStatement.Statement(handle, conn, "SELECT 1");
    var e := s.Exec(true);
    iteration := e.result.GetIterator(4, 1, 2);
  }

  /** Six parameters with LOBs at positions 2 and 5. */
  function TwoLobParams(): seq<Arg> {
    [Raw(PInt(1)), Param(Plain, PString("x")), Param(Blob, PArray([PString("a")])),
     Raw(PNull), Param(Plain, PInt(0)), Param(Text, PArray([PString("b"), PString("c")]))]
  }

  /** Their bind types and bind values. */
  lemma TwoLobsBound()
    ensures BindTypes(TwoLobParams()) == "isbsib"
    ensures BindValues(TwoLobParams()) == [PInt(1), PString("x"), PNull, PNull, PInt(0), PNull]
  {
    var p := TwoLobParams();
    assert TypeCode(p[0]) == 'i' && TypeCode(p[1]) == 's' && TypeCode(p[2]) == 'b';
    assert TypeCode(p[3]) == 's' && TypeCode(p[4]) == 'i' && TypeCode(p[5]) == 'b';
  }

  /** Their LOB table: positions 2 and 5, in that order. */
  lemma TwoLobsTable()
    ensures LobTable(TwoLobParams()) ==
            [Lob(2, PArray([PString("a")])), Lob(5, PArray([PString("b"), PString("c")]))]
  {
    var p := TwoLobParams();
    assert p[..1][..0] == [];
    assert LobTable(p[..1]) == [];
    assert p[..2][..1] == p[..1];
    assert LobTable(p[..2]) == [];
    assert p[..3][..2] == p[..2];
    assert LobTable(p[..3]) == [Lob(2, PArray([PString("a")]))];
    assert p[..4][..3] == p[..3];
    assert LobTable(p[..4]) == [Lob(2, PArray([PString("a")]))];
    assert p[..5][..4] == p[..4];
    assert LobTable(p[..5]) == [Lob(2, PArray([PString("a")]))];
    assert p[..5] == p[..|p| - 1];
  }

  /** The parts of position 2 are streamed before those of position 5. */
  lemma TwoLobsStreamed()
    ensures SendEvents(LobTable(TwoLobParams())) ==
            [SendLongData(2, PString("a")), SendLongData(5, PString("b")), SendLongData(5, PString("c"))]
  {
    TwoLobsTable();
    var two := Lob(2, PArray([PString("a")]));
    var five := Lob(5, PArray([PString("b"), PString("c")]));
    assert [two, five][..1] == [two];
    assert [two][..0] == [];
    assert SendEvents([two, five]) == SendEvents([two]) + LobSends(five);
  }
}
