# Prepared-statement pipeline of the VV mysqli driver, in Dafny

This project models the execution core of the `phpvv/db-mysql` driver. The driver binds the
prepare, bind, execute and fetch model of the VV database layer onto PHP's `mysqli` client.
The source has the core twice: `VV\Db\Mysqli` under `src/` and the older `VV\Db\Mysql` under
`Mysql/`. Both are modelled.

- **Parameter classification** (`Statement::bind`). Each parameter gets one bind-type letter
  from `s`, `i`, `d` and `b`. A `Param` of type `T_TEXT` or `T_BLOB` is moved into the
  statement's `blobs` table under its position, and its bind slot is null. Any other `Param`
  is unwrapped to its value. The letter comes from `gettype`: `string`, `integer` and
  `double` give their first letter, and anything else gives `s`.
- **Deferred LOB streaming** (`Statement::exec`). Each truthy `blobs` entry that is an array
  or an object is sent with `send_long_data`, one call per element, in table order, before the
  single `execute`. A failed execute raises `SqlSyntaxError`.
- **Native-error translation** (`Driver::createMysqliError` in `src/`, `Driver::mysqliError`
  in `Mysql/`). Errno 0 means no error. Otherwise the message is the native message, followed
  by `"\n" . query . "\n"` when the query string is truthy. Only the `src/` version replaces a
  falsy message with `'MySQLi Error'`.
- **Results** (`Result::getIterator`). The requested fetch flags are mapped to a `mysqli`
  fetch mode, and rows are yielded until the first falsy fetch. Iteration fails when the
  statement was closed, when `get_result` fails, or when the mode is 0. `getInsertedId` and
  `getAffectedRows` pass values through, and `close` does nothing.

How the model works:

- PHP values are the datatype `PhpValues.PhpValue`. It writes out `gettype`, PHP truthiness,
  and what a `foreach` visits.
- The native `mysqli_stmt` is the class `Native.Stmt`. The driver's calls to `bind_param`,
  `send_long_data`, `execute` and `close` are appended to its `calls` log as
  `BindParam(types, values)`, `SendLongData(nr, part)`, `Execute` and `Close`. Only these
  four are logged. `get_result` is not: its outcome is read from the field `resultSet`.
- Some things are decided by the native client. The booleans `bind_param` and `execute`
  return are parameters of `Bind` and `Exec`. This assumes mysqli's error reporting is off,
  so that these calls return `false` rather than throw (see Left out). The connection's `errno` and `error` are fields of
  `Native.Connection`. The rows `fetch_array` returns are a field of `Native.Stmt`.
- Each `Statement` is a class with the source's fields. `stmt` is nullable and becomes null on
  `close`. `blobs` is `null` until the first non-empty `bind`. It is a PHP array with
  positions as keys in insertion order, modelled as an ordered list of `Lob(nr, value)`.
- A call on a closed handle is PHP's `Error` for calling a method on null. It is modelled as
  the exception `NullCall(name)`, not as a precondition.
- The loops of `bind` and `exec` are proved to compute the functions `BindTypes`,
  `BindValues`, `LobTable` and `SendEvents` of module `Binding`. Their properties are proved
  as lemmas about those functions. Both namespaces have the same loop bodies, so the steps
  are written once, as `Binding.ClassifyParam`, `Binding.SendLob` and `Binding.SendLobs`.
  `ClassifyParam` returns the LOB-table entry, and `Bind` appends it to `blobs` inside the
  loop, as the source does.

Behaviour of the code worth noting:

- `close` is not idempotent. A second call calls `close()` on null and throws
  (`Scenarios.CloseTwice`).
- A rejected `bind_param` raises `RuntimeException('Bind params error')`.
- Calling `bind` with an empty list keeps the `blobs` table of an earlier bind.
- A `T_TEXT` or `T_BLOB` value that is a truthy scalar, such as the string `"abc"`, passes the
  falsy check in `exec`. But a `foreach` over a scalar runs no iteration, so nothing is sent for
  it, and its bind slot is null (`Binding.StreamedPartsOfParam`).
- A `Result` shares its statement's native handle. After the statement is closed, iterating
  the result fails at `get_result` (`Scenarios.IterateAfterClose`).
- When neither `FETCH_ASSOC` nor `FETCH_NUM` is requested, the mode stays 0, and `fetch_array`
  rejects it with `ValueError` at the first fetch (`Scenarios.IterateWithoutMode`).
- The error translators do not convert the message's encoding. The conversion in `connect`
  is left out.

## Model

| member | source | states |
|---|---|---|
| `PhpValues.Elements` | src/Statement.php:102-104 | a `foreach` over a scalar visits nothing; arrays and objects yield their elements |
| `Binding.TypeCode` | src/Statement.php:56-76 | a parameter's letter is one of `sidb`; `b` exactly for `T_TEXT`/`T_BLOB` Params (`gettype(null)` leaves it); otherwise `i` exactly for an integer value, `d` exactly for a double, `s` for everything else, after unwrapping a Param |
| `Binding.BindTypes` | src/Statement.php:53-79 | the bind-type string has exactly one letter per parameter, and letter i is parameter i's letter |
| `Binding.BindValues` | src/Statement.php:54-82 | the values passed to `bind_param` keep parameter count and order, with null in every LOB slot and the unwrapped value elsewhere |
| `Binding.ClassifyParam` | src/Statement.php:55-76 | one loop step: returns the parameter's letter, its bind-slot value and, for a LOB only, the entry `blobs[i] = value` |
| `Binding.LobTable` | src/Statement.php:52-65 | the `$this->blobs` table `bind` builds, reset to empty and filled in parameter order; it has at most one entry per parameter |
| `Binding.LobTableEntries` | src/Statement.php:57-65 | the table `bind` builds has strictly increasing keys, and every entry is a LOB parameter's position and value |
| `Binding.LobTableLookup` | src/Statement.php:57-65 | looking up `blobs[i]` gives parameter i's value exactly when it is a LOB, and nothing otherwise |
| `Binding.ChunkSends` | src/Statement.php:102-104 | one `send_long_data(nr, part)` per part, in part order |
| `Binding.LobSendsParts` | src/Statement.php:99-104 | one table entry's step of `exec` (the function `LobSends`): a falsy value sends nothing; a truthy one sends one `send_long_data(nr, part)` per `foreach` part, in order |
| `Binding.SendEvents` | src/Statement.php:97-106 | everything `exec` streams is a `send_long_data` call |
| `Binding.SendLob` | src/Statement.php:98-105 | for one entry, the log gains nothing when the value is falsy and otherwise one send per part, in order |
| `Binding.SendLobs` | src/Statement.php:97-106 | the log gains exactly the sends of all entries, in table order |
| `Binding.SendsInPositionOrder` | src/Statement.php:97-106 | for a table with increasing keys, sends go out in non-decreasing position order |
| `Binding.StreamedParts` | src/Statement.php:97-106 | for such a table, the parts sent for position nr are exactly the parts of `blobs[nr]`, in order, and none when it is unset or falsy |
| `Binding.StreamedPartsOfParam` | src/Statement.php:55-106 | after `bind(params)`, `exec` sends for position i exactly the parts of parameter i when it is a truthy LOB, in order, and nothing otherwise |
| `Binding.StreamedInParamOrder` | src/Statement.php:55-106 | after `bind(params)`, sends follow parameter order and name only positions of the list |
| `MysqliDriver.CreateMysqliError` | src/Driver.php:77-89 | no error exactly when errno is 0; otherwise the code is errno and the message is never falsy; with a truthy query it is `error + "\n" + query + "\n"`; without one it is the native message, or `'MySQLi Error'` when that is falsy |
| `MysqliDriver.MessageCarriesQuery` | src/Driver.php:83-86 | with a truthy query, the message starts with the native message and holds the query text after the first newline |
| `MysqliDriver.GetDbmsName` | src/Driver.php:58-61 | returns the interface's `DBMS_MYSQL` string, whatever its value |
| `MysqliDriver.GetSqlStringifiersFactory` | src/Driver.php:66-69 | always returns null |
| `MysqlDriver.MysqliError` | Mysql/Driver.php:103-112 | no error exactly when errno is 0; otherwise the code is errno and the message starts with the native message; it is `error + "\n" + query + "\n"` for a truthy query and exactly the native message otherwise, with no fallback |
| `MysqlDriver.DbmsName` | Mysql/Driver.php:93-95 | returns the interface's `DBMS_MYSQL` string, whatever its value |
| `MysqlDriver.TranslatorsAgree` | Mysql/Driver.php:106-111 | the two translators give the same result exactly when this one's message is truthy (or there is no error); otherwise the newer one gives `'MySQLi Error'` with the same code |
| `MysqlDriver.EmptyMessageKeptHere` | Mysql/Driver.php:111 | an empty native message with no query stays empty here and is replaced in the newer translator |
| `MysqliResult.FetchModeAsWritten` | src/Result.php:48-55 | the mode is 0 or `MYSQLI_ASSOC`, and it is `MYSQLI_ASSOC` exactly when `FETCH_ASSOC` or `FETCH_NUM` is requested |
| `MysqliResult.PositionalFetchIsAssociative` | src/Result.php:52-54 | as written, a request for `FETCH_NUM` alone fetches with `MYSQLI_ASSOC` and never with `MYSQLI_NUM` |
| `MysqliResult.FetchMode` | src/Result.php:48-55 | corrected mapping: `MYSQLI_ASSOC` is set exactly when `FETCH_ASSOC` is requested, `MYSQLI_NUM` exactly when `FETCH_NUM` is, and no other bit; the mode is 0 exactly when neither flag is requested |
| `MysqliResult.FetchModesAgreeWithoutNum` | src/Result.php:52-54 | the corrected and as-written mappings agree, and leave out `MYSQLI_NUM`, exactly when `FETCH_NUM` is not requested |
| `MysqliResult.Result.constructor` | src/Result.php:25-28 | the result wraps the given native statement |
| `MysqliResult.Result.GetIterator` | src/Result.php:41-59 | before any row it fails: with PHP's closed-statement `Error` at `get_result` when the handle was closed; with `RuntimeException('get_result error')` when `get_result` fails; with `ValueError` at `fetch_array` when the mode is 0; it yields rows exactly when none of these holds; the rows are then a prefix of the native fetches, all truthy, ending at the first falsy fetch or at the end; the fetch mode is the corrected one |
| `MysqliResult.Result.GetInsertedId` | src/Result.php:64-67 | the native handle's `insert_id`, unchanged |
| `MysqliResult.Result.Close` | src/Result.php:80-82 | changes nothing: the native handle's call log is left as it was |
| `MysqliResult.Result.GetAffectedRows` | src/Result.php:72-75 | the native handle's `affected_rows`, unchanged |
| `MysqliStatement.Statement.constructor` | src/Statement.php:25-32 | stores handle, connection and query; `blobs` starts null |
| `MysqliStatement.Statement.SetFetchSize` | src/Statement.php:38-41 | always throws the `LogicException`, whatever the size or state |
| `MysqliStatement.Statement.CreateMysqliError` | src/Statement.php:124-127 | the connection's last error translated with this statement's query: nothing for errno 0, else its code and a truthy message; the query is appended when truthy; without it the message is the native one, or `'MySQLi Error'` when that is falsy |
| `MysqliStatement.Statement.Bind` | src/Statement.php:46-90 | an empty list makes no call and leaves `blobs` alone; otherwise `blobs` becomes the LOB table of the list, and one `bind_param(BindTypes, BindValues)` is logged; a rejection raises `RuntimeException('Bind params error', 0, translated error)`; on a closed handle it throws at `bind_param` |
| `MysqliStatement.Statement.Exec` | src/Statement.php:95-113 | the log gains exactly the LOB sends of `blobs`, then one `Execute`; the sends go out in non-decreasing position order; a failed execute raises `SqlSyntaxError` wrapping the translated error; success returns a new `Result` over the same handle; on a closed handle it throws at the first native call |
| `MysqliStatement.Statement.Close` | src/Statement.php:118-122 | logs `close` on the handle and sets it to null; on an already closed statement it throws and changes nothing |
| `MysqlStatement.Statement.constructor` | Mysql/Statement.php:26-32 | stores handle, connection and query; `blobs` starts null |
| `MysqlStatement.Statement.SetFetchSize` | Mysql/Statement.php:38-40 | always throws the `LogicException` |
| `MysqlStatement.Statement.MysqliError` | Mysql/Statement.php:118-120 | the connection's last error translated with this statement's query by the older translator: the message starts with the native message, and the query is appended only when truthy |
| `MysqlStatement.Statement.Bind` | Mysql/Statement.php:45-88 | as in the newer copy, with the older translator in the `RuntimeException` |
| `MysqlStatement.Statement.Exec` | Mysql/Statement.php:93-108 | as in the newer copy: the LOB sends, in non-decreasing position order, then one `Execute`; failure raises `SqlSyntaxError` with the older translator's error; success returns the same handle |
| `MysqlStatement.Statement.Close` | Mysql/Statement.php:113-116 | logs `close` and nulls the handle; on a closed statement it throws |
| `Scenarios.InsertTwoScalars` | src/Statement.php:46-113 | binding `[42, "hello"]` logs `bind_param("is", [42, "hello"])` and then `execute`, and the result reports one affected row |
| `Scenarios.ChunkedText` | src/Statement.php:55-106 | one text LOB in chunks `["abc","def"]` gives type `"b"`, a null slot, table `{0: value}`, and the two chunks streamed in order |
| `Scenarios.RejectedStatement` | src/Statement.php:108-110 | a failed execute with errno 1064 raises `SqlSyntaxError` carrying code 1064 and the query text |
| `Scenarios.NoParameters` | src/Statement.php:48 | binding no parameters makes no `bind_param` call and execute still runs; iteration stops at the first falsy fetch |
| `Scenarios.CloseTwice` | src/Statement.php:118-122 | the first close succeeds and the second throws at `close()` on null; `close` reaches the native handle once |
| `Scenarios.IterateAfterClose` | src/Result.php:41-46 | iterating a result whose statement was closed fails at `get_result` with the closed-statement `Error` |
| `Scenarios.IterateWithoutMode` | src/Result.php:48-56 | requesting neither fetch flag leaves mode 0, and iteration fails with `ValueError` at `fetch_array` |
| `Scenarios.TwoLobsBound` | src/Statement.php:53-82 | six parameters with LOBs at 2 and 5 give types `"isbsib"` and null slots at 2 and 5 |
| `Scenarios.TwoLobsTable` | src/Statement.php:57-65 | their LOB table holds positions 2 and 5, in that order |
| `Scenarios.TwoLobsStreamed` | src/Statement.php:97-106 | the part of position 2 is sent before the parts of position 5 |

## Findings

| source | as written | input that shows it | evidently intended | confidence | as-written member | corrected member |
|---|---|---|---|---|---|---|
| src/Result.php:52-54 | `FETCH_NUM` adds `MYSQLI_ASSOC` to the native fetch mode | flags with only the `FETCH_NUM` bit set: the mode is `MYSQLI_ASSOC`, so rows come back keyed by column name | `FETCH_NUM` adds `MYSQLI_NUM` | medium, not executed | `MysqliResult.FetchModeAsWritten`, `MysqliResult.PositionalFetchIsAssociative` | `MysqliResult.FetchMode` (used by `MysqliResult.Result.GetIterator`) |

## Left out

- `Driver::connect` in both namespaces is left out. It is network I/O against the client:
  connecting, `set_charset`, `SET SQL_MODE` and `autocommit`.
- `Driver::toUtf8` and the Windows `\VV\toUtf8` are left out. They depend on `iconv`,
  `mb_check_encoding` and the operating system.
- The stringifier factories of `Mysql/Driver.php` are left out. The stringifier classes are
  not part of this model.
- `src/Connection.php` is left out. Its `prepare`, `commit`, `rollback` and `disconnect` pass
  straight through to `mysqli`, and `startTransaction` is empty. A prepared handle enters the
  model as the `Native.Stmt` given to the `Statement` constructor.
- `VV\Db\Mysql\Result` is not part of this model. `MysqlStatement.Statement.Exec` returns the
  native handle that result would wrap.
- `Result::seek` (`data_seek`) is left out, and so are row contents. Rows are abstract values
  read from `Native.Stmt.resultSet`.
- `MysqliResult.Result.GetIterator` collects all rows at once. It does not model the
  generator's laziness or that it cannot be restarted. It applies the corrected fetch mode
  (see Findings), not the as-written one.
- `Db::FETCH_ASSOC` and `Db::FETCH_NUM` are defined outside this model. They are parameters
  of the fetch-mode functions and of `GetIterator`. `MYSQLI_ASSOC = 1` and `MYSQLI_NUM = 2`
  are the mysqli extension's values.
- The `DBMS_MYSQL` constant is defined in the driver interface, which is not part of this
  model. `DriverTypes.DBMS_MYSQL` is a string constant whose value the model leaves open.
- PHP references (`&$param->getValue()`) are modelled as values. A later change to a
  `Param`'s value does not reach `blobs`.
- Exceptions are a datatype recording their kind, message, code and previous error. The
  exception class hierarchy is not modelled.
- With `strict_types`, `send_long_data` raises `TypeError` for a part that is not a string.
  This is not modelled: every part is sent as it is.
- The `Mysql/` copy of `exec` passes `null` for the `SqlSyntaxError` message and code, and the
  `src/` copy omits them. The exception's own defaults are outside this model. Both are
  `SqlSyntaxError(previous)`.
- `MysqliStatement.Statement.Bind` and `MysqlStatement.Statement.Bind` take `bind_param`'s
  return value as `bindAccepted`. They assume mysqli's error reporting is off
  (`MYSQLI_REPORT_OFF`). Under PHP 8.1's default (`MYSQLI_REPORT_ERROR | MYSQLI_REPORT_STRICT`),
  `bind_param` throws `mysqli_sql_exception`, and the `RuntimeException('Bind params error')`
  branch is never reached. In any mode, a placeholder-count mismatch makes `bind_param` throw
  `ArgumentCountError`. This model does not capture that.
- `MysqliStatement.Statement.Exec` and `MysqlStatement.Statement.Exec` take `execute`'s return
  value as `executeOk`, under the same assumption. With reporting on, `send_long_data` and
  `execute` throw `mysqli_sql_exception`, and the `SqlSyntaxError` branch is never reached.
- `MysqliResult.Result.GetInsertedId` and `MysqliResult.Result.GetAffectedRows` read the
  handle's properties even after the statement was closed. PHP raises `Error` there. The
  model does not capture this.
- PHP integers are unbounded `int`s in the model, and doubles are `real`s. The core only asks
  for their type, so the 64-bit width and floating point do not matter. Fetch flags are
  64-bit bit-vectors.
