/** `VV\Db\Mysql\Driver`: the older error translator and `dbmsName`. */
module MysqlDriver {
  import opened Base
  import opened PhpValues
  import DriverTypes
  import MysqliDriver

  /**
   * `mysqliError`: no error for errno 0; otherwise the native message, with the
   * query string framed by newlines when it is truthy. There is no fallback for
   * an empty message.
   */
  function MysqliError(errno: int, error: string, queryString: Option<string>): (r: Option<DriverTypes.MysqliError>)
    ensures r.None? <==> errno == 0
    ensures r.Some? ==> r.value.code == errno && error <= r.value.message
    ensures r.Some? && DriverTypes.QueryGiven(queryString) ==>
              r.value.message == error + "\n" + queryString.value + "\n"
    ensures r.Some? && !DriverTypes.QueryGiven(queryString) ==> r.value.message == error
  {
    if errno == 0 then None
    else
      var message := error + if DriverTypes.QueryGiven(queryString) then "\n" + queryString.value + "\n" else "";
      Some(DriverTypes.MysqliError(message, errno))
  }

  /** `dbmsName`. */
  function DbmsName(): (r: string)
    ensures r == DriverTypes.DBMS_MYSQL
  {
    DriverTypes.DBMS_MYSQL
  }

  /**
   * The two translators agree whenever this one's message is truthy; they differ
   * exactly when it is falsy, where the newer one substitutes its fallback.
   */
  lemma TranslatorsAgree(errno: int, error: string, queryString: Option<string>)
    ensures var older := MysqliError(errno, error, queryString);
            var newer := MysqliDriver.CreateMysqliError(errno, error, queryString);
            (older == newer <==> older.None? || StringTruthy(older.value.message)) &&
            (older.Some? && !StringTruthy(older.value.message) ==>
               newer == Some(DriverTypes.MysqliError(MysqliDriver.FALLBACK_MESSAGE, errno)))
  {
  }

  /** An empty native message and no query: only the newer translator repairs it. */
  lemma EmptyMessageKeptHere()
    ensures MysqliError(2006, "", None) == Some(DriverTypes.MysqliError("", 2006))
    ensures MysqliDriver.CreateMysqliError(2006, "", None) ==
            Some(DriverTypes.MysqliError("MySQLi Error", 2006))
  {
  }
}
