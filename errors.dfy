/**
  The exceptions the marshaling layer raises: the `Error` family declared in
  cloudinary/api.py, the built-in classes it can fall back on, and the
  `EXCEPTION_CODES` table from HTTP status to class.
 */
module Errors {

  /** The exception classes that can reach a caller of the API functions. */
  datatype ExceptionClass =
    | Exception
    | TypeError
    | KeyError
    | Error
    | NotFound
    | NotAllowed
    | AlreadyExists
    | RateLimited
    | BadRequest
    | GeneralError
    | AuthorizationRequired

  /** An exception instance: its class and the message it was raised with. */
  datatype Raised = Raised(cls: ExceptionClass, message: string)

  /** Depth in the class hierarchy below the built-in `Exception`. */
  function Depth(c: ExceptionClass): nat {
    match c
    case Exception => 0
    case TypeError | KeyError | Error => 1
    case _ => 2
  }

  /**
    The class `c` derives from directly, in the part of the hierarchy the
    model keeps: `KeyError` derives from `LookupError`, which is not modelled,
    so here it sits directly under `Exception` like `TypeError`.
   */
  function BaseOf(c: ExceptionClass): (b: ExceptionClass)
    requires c != Exception
    ensures Depth(b) == Depth(c) - 1
    ensures Depth(c) == 1 ==> b == Exception
    ensures Depth(c) == 2 ==> b == Error
  {
    match c
    case TypeError | KeyError | Error => Exception
    case _ => Error
  }

  /** `issubclass(c, of)` */
  predicate IsSubclass(c: ExceptionClass, of: ExceptionClass)
    decreases Depth(c)
  {
    c == of || (c != Exception && IsSubclass(BaseOf(c), of))
  }

  /** `EXCEPTION_CODES` */
  const ExceptionCodes: map<int, ExceptionClass> := map[
    400 := BadRequest,
    401 := AuthorizationRequired,
    403 := NotAllowed,
    404 := NotFound,
    409 := AlreadyExists,
    420 := RateLimited,
    500 := GeneralError
  ]

  /** The statuses the table knows. */
  predicate IsMappedStatus(status: int) {
    status == 400 || status == 401 || status == 403 || status == 404
    || status == 409 || status == 420 || status == 500
  }

  /**
    `EXCEPTION_CODES.get(status) or Exception`: a mapped status gives its own
    subclass of `Error`; any other status gives the built-in `Exception`,
    which is not an `Error`.
   */
  function ClassFor(status: int): (c: ExceptionClass)
    ensures IsMappedStatus(status) ==> IsSubclass(c, Error) && c != Error
    ensures !IsMappedStatus(status) ==> c == Exception && !IsSubclass(c, Error)
  {
    if status in ExceptionCodes then ExceptionCodes[status] else Exception
  }

  /** Different mapped statuses raise different classes, so a handler can tell them apart. */
  lemma ClassForDistinguishesStatuses(s1: int, s2: int)
    requires IsMappedStatus(s1) && IsMappedStatus(s2) && s1 != s2
    ensures ClassFor(s1) != ClassFor(s2)
  {
  }

  /** Every class in the table is a proper subclass of `Error`, and `Error` itself is an `Exception`. */
  lemma ErrorFamily(c: ExceptionClass)
    requires c in ExceptionCodes.Values
    ensures IsSubclass(c, Error) && IsSubclass(c, Exception) && c != Error
  {
  }
}
