/**
 * The values that pass through the request-handling layer: a request, the
 * reply variants, the errors a handler can return, and the handler shape.
 */
module Resp {
  import RespErrors

  /** A decoded request: the command token and its arguments, in order. */
  datatype Req = Req(Command: string, Args: seq<string>)

  /** The reply variants a handler produces. */
  datatype RType =
    | RNil
    | RBulkString(str: string)
    | RInt(n: int)
    | RArray(values: seq<string>)

  /** Which argument-count rule a request failed. */
  datatype Arity = Exactly | AtLeast

  /** Every error value that can leave a handler or the router. */
  datatype Error =
      /** One of the two kinds of the protocol error taxonomy. */
    | Client(err: RespErrors.ClientError)
      /** The argument-count check failed: the command, the rule, the bound and the count seen. */
    | ArgCount(command: string, rule: Arity, bound: nat, got: nat)
      /** A bound of a range request is not a base-10 integer: the command and a literal. */
    | InvalidInteger(command: string, literal: string)
      /** An error raised behind the list engine interface, passed on as it is. */
    | Other(message: string)

  /** Go's `(value, error)` pair: exactly one of the two is meaningful. */
  datatype Result<+T> = Ok(value: T) | Err(error: Error)

  /**
   * The outcome of a call that may touch the list store: the result and the
   * state of the store afterwards.
   */
  datatype Step<S, +T> = Step(result: Result<T>, store: S)

  /** A handler serves one request against the current state of the store. */
  type Handler<!S> = (S, Req) -> Step<S, RType>
}
