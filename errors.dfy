/** The exception kinds the pipeline can raise, each with its message text. */
module Errors {

  datatype ErrorKind =
    | SyntaxError         // lexer and parser failures
    | NameError           // undefined variable or function
    | UnboundLocalError   // a NameError subclass: the lexer's `line` read before assignment
    | TypeError
    | RuntimeError        // invalid assignment target; also what run_code converts to
    | AttributeError      // missing module member
    | KeyError            // a module mapping called as a function without a 'type' key
    | ZeroDivisionError
    | ValueError          // float() of a numeric token with several dots
    | ImportError         // raised by a host while loading a module
    | ModuleNotFoundError // an ImportError subclass
    | HostError           // any other exception raised by a host (native) function
    | Unmodelled          // host behaviour this model does not interpret (see README)

  datatype Error = Error(kind: ErrorKind, message: string)

  /** The kinds run_code catches and re-raises as RuntimeError (its `except` tuple). */
  predicate ConvertedByRunCode(k: ErrorKind)
  {
    k in {SyntaxError, NameError, UnboundLocalError, TypeError, RuntimeError}
  }
}
