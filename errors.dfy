/** The Java exceptions the framework throws, catches and wraps. */
module Errors {
  import opened Wrappers

  /** Selenium exception classes an abstract driver call can raise. */
  datatype DriverErrorKind =
    | NoSuchElement
    | ElementNotInteractable
    | ElementClickIntercepted   // a subclass of ElementNotInteractableException
    | Timeout
    | StaleElementReference
    | JavascriptError
    | SessionNotCreated
    | OtherWebDriverError

  /** A WebDriverException raised by the driver, with its message. */
  datatype DriverError = DriverError(kind: DriverErrorKind, message: string)

  /** Whether `catch (ElementNotInteractableException e)` catches this kind:
      ElementClickInterceptedException extends ElementNotInteractableException. */
  predicate IsNotInteractable(kind: DriverErrorKind) {
    kind == ElementNotInteractable || kind == ElementClickIntercepted
  }

  /** A thrown Java exception. `Runtime` is a RuntimeException with the
      exception it wraps, if any. */
  datatype Ex =
    | Driver(error: DriverError)
    | NullPointer
    | Io
    | MalformedUrl
    | IllegalArgument(message: string)
    | IllegalState(message: string)
    | Runtime(message: string, cause: Option<Ex>)

  /** `e.getMessage()` as concatenated into another message; a null message
      prints as "null". */
  function MessageOf(e: Ex): string {
    match e
    case Driver(d) => d.message
    case IllegalArgument(m) => m
    case IllegalState(m) => m
    case Runtime(m, _) => m
    case _ => "null"
  }

  /** `catch (Exception e) { throw new RuntimeException(message, e); }`
      around a block whose failure, if any, is `error`. */
  function WrapAs(message: string, error: Option<Ex>): (r: Outcome<Ex>)
    ensures r.Pass? <==> error.None?
    ensures r.Fail? ==> r.error == Runtime(message, error)
  {
    match error
    case None => Pass
    case Some(_) => Fail(Runtime(message, error))
  }

  /** A block whose failure, if any, propagates unchanged (no catch, or a
      catch that re-throws). */
  function Propagate(error: Option<Ex>): (r: Outcome<Ex>)
    ensures r.Pass? <==> error.None?
    ensures r.Fail? ==> Some(r.error) == error
  {
    match error
    case None => Pass
    case Some(e) => Fail(e)
  }
}
