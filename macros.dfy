/**
  The two fail-fast shortcuts of request handlers. Each evaluates a fallible
  or optional value and either continues with its content or ends the
  enclosing handler early with a result derived from a response modifier.
  `Flow` makes the early return explicit: `Continue(v)` is the value the
  macro evaluates to, `Return(r)` is what the handler returns.
 */
module Macros {
  import opened Results

  datatype Status = BadRequest | NotFound | InternalServerError | OtherStatus(code: nat)

  /** A response modifier: a status, a status with a body text, or any other modifier. */
  datatype Modifier =
    | WithStatus(status: Status)
    | WithStatusAndBody(status: Status, body: string)
    | OtherModifier(tag: nat)

  /** `Response::with(modifier)`: a new response with the modifier applied, kept uninterpreted. */
  datatype Response = ResponseWith(modifier: Modifier)

  /** Any error value, boxed as an error trait object; kept uninterpreted. */
  datatype Error = Error(description: string)

  /** `IronError::new(error, modifier)`: the original error and the modifier for its response. */
  datatype IronError = IronError(error: Error, modifier: Modifier)

  /** What a handler returns. */
  type IronResult = Result<Response, IronError>

  datatype Flow<T> = Continue(value: T) | Return(result: IronResult)

  /** The modifier of one-argument `itry!`. */
  const TryDefault: Modifier := WithStatus(InternalServerError)

  /** The modifier of one-argument `iexpect!`. */
  const ExpectDefault: Modifier := WithStatus(BadRequest)

  /**
    `itry!(result, modifier)`: an `Ok` value is the macro's value; an `Err`
    ends the handler with an error carrying the original error and the
    modifier.
   */
  function ITry<T>(result: Result<T, Error>, modifier: Modifier): (f: Flow<T>)
    ensures f.Continue? <==> result.Ok?
    ensures result.Ok? ==> f.value == result.value
    ensures result.Err? ==> f.result == Err(IronError(result.error, modifier))
  {
    match result
    case Ok(v) => Continue(v)
    case Err(e) => Return(Err(IronError(e, modifier)))
  }

  /** `itry!(result)`: an early return is an error whose response is a server error. */
  function ITryDefault<T>(result: Result<T, Error>): (f: Flow<T>)
    ensures f.Continue? <==> result.Ok?
    ensures result.Ok? ==> f.value == result.value
    ensures f.Return? ==> f.result.Err? && f.result.error.modifier == WithStatus(InternalServerError)
  {
    ITry(result, TryDefault)
  }

  /**
    `iexpect!(option, modifier)`: a present value is the macro's value; an
    absent one ends the handler successfully with a response built from the
    modifier.
   */
  function IExpect<T>(option: Option<T>, modifier: Modifier): (f: Flow<T>)
    ensures f.Continue? <==> option.Some?
    ensures option.Some? ==> f.value == option.value
    ensures option.None? ==> f.result == Ok(ResponseWith(modifier))
  {
    match option
    case Some(x) => Continue(x)
    case None => Return(Ok(ResponseWith(modifier)))
  }

  /** `iexpect!(option)`: an early return is a success whose response is a client error. */
  function IExpectDefault<T>(option: Option<T>): (f: Flow<T>)
    ensures f.Continue? <==> option.Some?
    ensures option.Some? ==> f.value == option.value
    ensures f.Return? ==> f == Return(Ok(ResponseWith(WithStatus(BadRequest))))
  {
    IExpect(option, ExpectDefault)
  }

  /** The enclosing handler's result: an early return ends it, otherwise `rest` runs on the value. */
  function Then<T>(f: Flow<T>, rest: T -> IronResult): IronResult {
    match f
    case Continue(v) => rest(v)
    case Return(r) => r
  }

  /** One-argument `itry!` is `itry!` with the server-error status. */
  lemma ITryDefaultModifier<T>(result: Result<T, Error>)
    ensures ITryDefault(result) == ITry(result, WithStatus(InternalServerError))
  {
  }

  /** One-argument `iexpect!` is `iexpect!` with the bad-request status. */
  lemma IExpectDefaultModifier<T>(option: Option<T>)
    ensures IExpectDefault(option) == IExpect(option, WithStatus(BadRequest))
  {
  }

  /**
    A handler using `itry!` returns what its remainder returns on `Ok`, and
    on `Err(e)` returns `Err` carrying `e` without running its remainder.
   */
  lemma ITryInHandler<T>(result: Result<T, Error>, modifier: Modifier,
                                    rest: T -> IronResult, other: T -> IronResult)
    ensures result.Ok? ==> Then(ITry(result, modifier), rest) == rest(result.value)
    ensures result.Err? ==> Then(ITry(result, modifier), rest) == Err(IronError(result.error, modifier))
    ensures result.Err? ==> Then(ITry(result, modifier), rest) == Then(ITry(result, modifier), other)
  {
  }

  /**
    A handler using `iexpect!` on an absent value returns a success, never an
    error, whatever its remainder would have done.
   */
  lemma IExpectInHandler<T>(option: Option<T>, modifier: Modifier, rest: T -> IronResult)
    ensures option.Some? ==> Then(IExpect(option, modifier), rest) == rest(option.value)
    ensures option.None? ==> Then(IExpect(option, modifier), rest) == Ok(ResponseWith(modifier))
    ensures option.None? ==> Then(IExpect(option, modifier), rest).Ok?
  {
  }

  /** An early return of `itry!` is always an error; one of `iexpect!` never is. */
  lemma EarlyReturnKinds<T>(result: Result<T, Error>, option: Option<T>, m1: Modifier, m2: Modifier)
    ensures ITry(result, m1).Return? ==> ITry(result, m1).result.Err?
    ensures IExpect(option, m2).Return? ==> IExpect(option, m2).result.Ok?
  {
  }
}
