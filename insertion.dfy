/**
 * The pure parts of `insert`: argument validation, and how the reply of the
 * storage call becomes the method's outcome (`true`, `false`, or an exception).
 */
module Insertion {
  import opened Wrappers
  import opened PhpValues

  /** The two `InvalidArgumentException`s `insert` raises before touching storage. */
  datatype ArgumentError = ValueNotString | PriorityNotInt

  function ArgumentMessage(e: ArgumentError): string {
    match e
    case ValueNotString => "$value must be a string"
    case PriorityNotInt => "$priority must be an integer"
  }

  /** The arguments once validated: the payload and the effective priority. */
  datatype Validated = Validated(value: string, priority: int)

  /**
   * The checks of `insert`: the value must be a string; a null priority takes
   * the queue's default; the priority must then be an integer. The value is
   * checked first, so a call that breaks both rules reports the value.
   */
  function Validate(value: PhpValue, priority: PhpValue, defaultPriority: int): (r: Result<Validated, ArgumentError>)
    ensures r.Success? <==> value.PString? && (priority.PNull? || priority.PInt?)
    ensures r == Failure(ValueNotString) <==> !value.PString?
    ensures r.Success? ==> r.value.value == value.s
    ensures r.Success? && priority.PNull? ==> r.value.priority == defaultPriority
    ensures r.Success? && priority.PInt? ==> r.value.priority == priority.i
  {
    if !value.PString? then Failure(ValueNotString)
    else
      var p := if priority.PNull? then PInt(defaultPriority) else priority;
      if !p.PInt? then Failure(PriorityNotInt)
      else Success(Validated(value.s, p.i))
  }

  /**
   * What `$this->_collection->insert(...)` did: returned an acknowledgment
   * array whose `ok` entry is some PHP value, threw a `MongoException`, or
   * threw some other exception.
   */
  datatype Response = Acknowledged(ok: PhpValue) | MongoThrew | OtherThrew

  /**
   * A storage call: its response, and whether the document did land in the
   * collection (a client-side timeout reports failure for a write the server
   * still applies).
   */
  datatype StorageReply = StorageReply(applied: bool, response: Response) {
    /** A fully acknowledged write was applied. */
    predicate Coherent() {
      response == Acknowledged(PFloat(1.0)) ==> applied
    }
  }

  /**
   * The error hook `insertErrorOccurred`: the base class throws an
   * `ErrorException`; the logging trait reports the error and returns.
   */
  datatype ErrorHook = ThrowingHook | LoggingHook

  /** The ways `insert` can raise. */
  datatype Raised =
    | InvalidArgument(message: string)  // a validation failure
    | HookError                         // the base hook's `ErrorException`, built from a caught `MongoException`
    | HookConstructionFailed            // the base hook handed an array: `new \ErrorException` refuses it
    | StorageError                      // a non-Mongo exception from the storage client

  /** The result of a call to `insert`: a boolean return or an exception. */
  datatype Outcome = Returned(success: bool) | Threw(error: Raised)

  /** The storage call succeeded: `ok` is identical (`!==`) to the float 1.0. */
  predicate FullyAcknowledged(resp: Response) {
    resp == Acknowledged(PFloat(1.0))
  }

  /** `$errorOccurred` after the try/catch: a caught `MongoException`, or an `ok` other than 1.0. */
  predicate ErrorOccurred(resp: Response) {
    resp.MongoThrew? || (resp.Acknowledged? && resp.ok != PFloat(1.0))
  }

  /**
   * The try/catch/finally as written. In PHP a `return` inside `finally`
   * discards an exception still in flight, so a non-Mongo exception from the
   * storage call is swallowed and `insert` returns true. The base hook passes
   * its argument to `new \ErrorException(...)`: a caught `MongoException`
   * converts to a message string, but an acknowledgment array does not, and
   * the constructor call itself fails: with an `Error` on PHP 7, a
   * `TypeError` on PHP 8.
   */
  function FinishAsWritten(resp: Response, hook: ErrorHook): (o: Outcome)
    ensures o == Returned(true) <==> !ErrorOccurred(resp)
    ensures o == Returned(false) <==> hook == LoggingHook && ErrorOccurred(resp)
    ensures o == Threw(HookError) <==> hook == ThrowingHook && resp.MongoThrew?
    ensures o == Threw(HookConstructionFailed) <==> hook == ThrowingHook && ErrorOccurred(resp) && resp.Acknowledged?
    ensures o != Threw(StorageError)
  {
    if ErrorOccurred(resp) then
      match hook
      case LoggingHook => Returned(false)
      case ThrowingHook => if resp.MongoThrew? then Threw(HookError) else Threw(HookConstructionFailed)
    else Returned(true)
  }

  /** The storage call threw, the document may not have landed, and yet the call reports success. */
  lemma FinishAsWrittenSwallowsException(hook: ErrorHook)
    ensures !FullyAcknowledged(OtherThrew)
    ensures FinishAsWritten(OtherThrew, hook) == Returned(true)
  {
  }

  /**
   * The try/catch/finally with the non-Mongo exception passed on to the caller,
   * as it is when the `return` is moved out of `finally`.
   */
  function Finish(resp: Response, hook: ErrorHook): (o: Outcome)
    ensures o == Returned(true) <==> FullyAcknowledged(resp)
    ensures o == Returned(false) <==> hook == LoggingHook && ErrorOccurred(resp)
    ensures o == Threw(HookError) <==> hook == ThrowingHook && resp.MongoThrew?
    ensures o == Threw(HookConstructionFailed) <==> hook == ThrowingHook && resp.Acknowledged? && !FullyAcknowledged(resp)
    ensures o == Threw(StorageError) <==> resp.OtherThrew?
  {
    match resp
    case OtherThrew => Threw(StorageError)
    case _ => FinishAsWritten(resp, hook)
  }

  /** The two agree except on a non-Mongo exception. */
  lemma FinishAgreesAsWritten(resp: Response, hook: ErrorHook)
    ensures FinishAsWritten(resp, hook) == Finish(resp, hook) <==> !resp.OtherThrew?
  {
  }

  /** With the base class's hook, `insert` never returns false: every failure raises. */
  lemma ThrowingHookNeverReturnsFalse(resp: Response)
    ensures Finish(resp, ThrowingHook) != Returned(false)
  {
  }

  /** An integer 1 is not identical to the float 1.0, so an `ok` of 1 is a failure. */
  lemma IntegerOkIsFailure(hook: ErrorHook)
    ensures Finish(Acknowledged(PInt(1)), hook) != Returned(true)
    ensures Finish(Acknowledged(PBool(true)), hook) != Returned(true)
  {
  }

  /** The largest PHP integer on a 64-bit build, `PHP_INT_MAX`. */
  const PhpIntMax: int := 0x7FFF_FFFF_FFFF_FFFF

  /** The non-empty arrays of the data providers: a list, a map and a list of strings. */
  const IntList := PArray([Entry(IntKey(0), PInt(0)), Entry(IntKey(1), PInt(1)), Entry(IntKey(2), PInt(2))])
  const AssocArray := PArray([Entry(StrKey("associative"), PString("array"))])
  const StringList := PArray([Entry(IntKey(0), PString("array")), Entry(IntKey(1), PString("with")),
                              Entry(IntKey(2), PString("strings"))])

  /**
   * The values and priorities the test suite's data providers feed `insert`:
   * every non-string value is refused, so is every non-integer, non-null
   * priority, and the accepted calls keep their priority or take the default
   * 7. The descriptions of the accepted calls play no part in validation.
   */
  lemma TestSuiteArguments()
    ensures forall v :: v in [PInt(0), PInt(1), PFloat(1.1), PNull, PBool(true), PBool(false),
                              PClosure, PObject, PArray([]), IntList, AssocArray, StringList] ==>
      Validate(v, PNull, 7) == Failure(ValueNotString)
    ensures forall p :: p in [PString(""), PString("0"), PString("1"), PBool(true), PBool(false),
                              PClosure, PObject, PArray([]), IntList, AssocArray, StringList] ==>
      Validate(PString("correct value"), p, 7) == Failure(PriorityNotInt)
    ensures Validate(PString("value"), PNull, 7) == Success(Validated("value", 7))
    ensures Validate(PString("another value"), PInt(0), 7) == Success(Validated("another value", 0))
    ensures Validate(PString("string"), PInt(1), 7) == Success(Validated("string", 1))
    ensures Validate(PString(""), PInt(2), 7) == Success(Validated("", 2))
    ensures Validate(PString("禅"), PInt(3), 7) == Success(Validated("禅", 3))
    ensures Validate(PString("Кириллица"), PInt(PhpIntMax), 7) == Success(Validated("Кириллица", PhpIntMax))
  {
  }
}
