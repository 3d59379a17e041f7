/** `DatabaseError` and `DatabaseHandle.check`: the single place where a failing
    SQLite result code is turned into a structured error. */
module DatabaseErrors {
  import opened Wrappers
  import opened Sqlite

  const ERROR_DOMAIN := "SQLyra.DatabaseErrorDomain"

  /** Foundation's `NSLocalizedDescriptionKey` and `NSLocalizedFailureReasonErrorKey`. */
  const DESCRIPTION_KEY := "NSLocalizedDescription"
  const FAILURE_REASON_KEY := "NSLocalizedFailureReason"

  datatype DatabaseError = DatabaseError(
    code: int32,              // failed result code
    message: Option<string>,  // a short error description
    details: Option<string>)  // a complete sentence describing why the operation failed

  /** The public initialiser stores its three arguments. */
  function Make(code: int32, message: string, details: string): (e: DatabaseError)
    ensures e.code == code && e.message == Some(message) && e.details == Some(details)
  {
    DatabaseError(code, Some(message), Some(details))
  }

  /** `init(code:db:)`: the message is `sqlite3_errstr(code)` and the details the
      handle's `sqlite3_errmsg`, dropped when it only repeats the message. */
  function FromHandle(code: int32, errstr: ErrStr, errmsg: Option<string>): (e: DatabaseError)
    ensures e.code == code
    ensures e.message == errstr(code)
    ensures e.details.None? <==> errmsg == errstr(code) || errmsg.None?
    ensures e.details.Some? ==> e.details == errmsg
  {
    DatabaseError(code, errstr(code), if errmsg == errstr(code) then None else errmsg)
  }

  /** `errorCode`: the code, widened to `Int`. */
  function ErrorCode(e: DatabaseError): (n: int)
    ensures n == e.code && INT32_MIN <= n <= INT32_MAX
  {
    e.code as int
  }

  /** `errorUserInfo`: the description under its key when there is a message, the
      failure reason under its key when there are details, nothing else. */
  function ErrorUserInfo(e: DatabaseError): (info: map<string, string>)
    ensures DESCRIPTION_KEY in info <==> e.message.Some?
    ensures FAILURE_REASON_KEY in info <==> e.details.Some?
    ensures DESCRIPTION_KEY in info ==> info[DESCRIPTION_KEY] == e.message.value
    ensures FAILURE_REASON_KEY in info ==> info[FAILURE_REASON_KEY] == e.details.value
    ensures forall k :: k in info ==> k == DESCRIPTION_KEY || k == FAILURE_REASON_KEY
  {
    var withMessage: map<string, string> := if e.message.Some? then map[DESCRIPTION_KEY := e.message.value] else map[];
    if e.details.Some? then withMessage[FAILURE_REASON_KEY := e.details.value] else withMessage
  }

  /** `check(_:_:)`: the handle itself when `code` is the expected one (by default
      `SQLITE_OK`), otherwise the error built from the code and the handle's message. */
  function Check<H>(handle: H, code: int32, errstr: ErrStr, errmsg: Option<string>, success: int32 := SQLITE_OK)
    : (r: Result<H, DatabaseError>)
    ensures r.Success? <==> code == success
    ensures r.Success? ==> r.value == handle
    ensures r.Failure? ==> r.error == FromHandle(code, errstr, errmsg) && r.error.code == code
  {
    if code == success then Success(handle) else Failure(FromHandle(code, errstr, errmsg))
  }
}
