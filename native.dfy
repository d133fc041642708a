/**
 * The native mysqli client as the driver sees it. Every call the driver makes on a
 * prepared-statement handle is appended to that handle's `calls` log; what the
 * client answers (whether a bind or an execute succeeded, the error code and
 * message left on the connection, the rows of a result set) is state that the
 * client sets and the driver only reads.
 */
module Native {
  import opened Base
  import opened PhpValues

  /** One call made on a `mysqli_stmt`. */
  datatype Call =
    | BindParam(types: string, values: seq<PhpValue>)
    | SendLongData(nr: nat, part: PhpValue)
    | Execute
    | Close

  /** `mysqli_stmt::$insert_id` is `int|string`. */
  datatype InsertId = IdInt(i: int) | IdString(s: string)

  /** A native prepared-statement handle (`mysqli_stmt`). */
  class Stmt {
    /** The calls the driver has made on this handle, oldest first. */
    var calls: seq<Call>
    var insertId: InsertId
    var affectedRows: int
    /**
     * What `get_result` gives: `None` when it fails, otherwise the successive values
     * `fetch_array` returns (past the end of the sequence it returns null).
     */
    var resultSet: Option<seq<PhpValue>>

    constructor (insertId: InsertId, affectedRows: int, resultSet: Option<seq<PhpValue>>)
      ensures calls == []
      ensures this.insertId == insertId && this.affectedRows == affectedRows
      ensures this.resultSet == resultSet
    {
      calls := [];
      this.insertId := insertId;
      this.affectedRows := affectedRows;
      this.resultSet := resultSet;
    }
  }

  /** A native connection (`mysqli`): only its last error is read by the core. */
  class Connection {
    var errno: int
    var error: string

    constructor (errno: int, error: string)
      ensures this.errno == errno && this.error == error
    {
      this.errno := errno;
      this.error := error;
    }
  }
}

/** The error values and exceptions the driver produces. */
module DriverTypes {
  import opened Base
  import opened PhpValues

  /** A `MysqliError` exception: message and native error code. */
  datatype MysqliError = MysqliError(message: string, code: int)

  /** The exceptions the core raises, with what it passes to their constructors. */
  datatype Exception =
    | LogicException(message: string)
    | RuntimeException(message: string, code: int, previous: Option<MysqliError>)
      /** `SqlSyntaxError` built with only a previous exception. */
    | SqlSyntaxError(previous: Option<MysqliError>)
      /** PHP's `Error` for calling method `member` on null (a closed handle). */
    | NullCall(member: string)
      /** PHP's `ValueError` for a native call `member` given an argument it rejects. */
    | ValueError(member: string)
      /** PHP's `Error` for calling `member` on a `mysqli_stmt` that was already closed. */
    | ClosedStatement(member: string)

  /** How a `void` method ends: normally, or by throwing. */
  datatype Outcome = Normal | Threw(e: Exception)

  /** The `DBMS_MYSQL` constant of the driver interface; its value is defined outside this model. */
  const DBMS_MYSQL: string

  /** A SQL stringifier factory; none is provided by this driver. */
  datatype StringifiersFactory = StringifiersFactory(name: string)

  /** The query string is appended to an error message only when it is truthy. */
  predicate QueryGiven(queryString: Option<string>) {
    queryString.Some? && StringTruthy(queryString.value)
  }
}
