/** `VV\Db\Mysqli\Driver`: the error translator and the two constant getters. */
module MysqliDriver {
  import opened Base
  import opened PhpValues
  import opened DriverTypes

  /** The message used when the assembled one is falsy. */
  const FALLBACK_MESSAGE: string := "MySQLi Error"

  /**
   * `createMysqliError`: no error for errno 0; otherwise the native message, with
   * the query string framed by newlines when it is truthy, and never a falsy message.
   */
  function CreateMysqliError(errno: int, error: string, queryString: Option<string>): (r: Option<MysqliError>)
    ensures r.None? <==> errno == 0
    ensures r.Some? ==> r.value.code == errno && StringTruthy(r.value.message)
    ensures r.Some? && QueryGiven(queryString) ==>
              r.value.message == error + "\n" + queryString.value + "\n"
    ensures r.Some? && !QueryGiven(queryString) ==>
              r.value.message == if StringTruthy(error) then error else FALLBACK_MESSAGE
  {
    if errno == 0 then None
    else
      var message := if QueryGiven(queryString) then error + "\n" + queryString.value + "\n" else error;
      Some(MysqliError(if StringTruthy(message) then message else FALLBACK_MESSAGE, errno))
  }

  /** With a truthy query the message holds the native message and then the query text. */
  lemma MessageCarriesQuery(errno: int, error: string, queryString: string)
    requires errno != 0 && StringTruthy(queryString)
    ensures var m := CreateMysqliError(errno, error, Some(queryString)).value.message;
            error <= m && m[|error| + 1..|error| + 1 + |queryString|] == queryString
  {
    var m := CreateMysqliError(errno, error, Some(queryString)).value.message;
    assert m == error + "\n" + queryString + "\n";
    assert m[|error| + 1..|error| + 1 + |queryString|] == queryString;
  }

  /** `getDbmsName`. */
  function GetDbmsName(): (r: string)
    ensures r == DBMS_MYSQL
  {
    DBMS_MYSQL
  }

  /** `getSqlStringifiersFactory`: this driver provides none. */
  function GetSqlStringifiersFactory(): (r: Option<StringifiersFactory>)
    ensures r == None
  {
    None
  }
}
