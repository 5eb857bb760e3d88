/** Failure-compatible wrappers shared by every service of the model.

    A Java method of the application either returns a value or throws; the
    model returns `Ok(value)` or `Err(error)`. Every service call is one
    transaction, so an `Err` result means that the store is left exactly as
    it was: the operations below return the new store only inside `Ok`.
 */
module Wrappers {

  /** A value that may be absent: a nullable column or reference. */
  datatype Option<+T> = None | Some(value: T)

  /** The kinds of failure the core can raise. */
  datatype Error =
      /** EntityNotFoundException: an id does not resolve to a live row. */
    | NotFound(message: string)
      /** RegistrationException: the e-mail address is already taken. */
    | Registration(message: string)
      /** RuntimeException from a specification provider manager: no provider
          is registered for a key. A programming defect, not user input. */
    | Configuration(message: string)
      /** NullPointerException: a method is called on an absent value. */
    | NullReference
      /** RuntimeException raised when the payment provider refuses a session. */
    | External(message: string)
      /** RuntimeException raised when the provider's session URL does not parse. */
    | InvalidUrl(message: string)
      /** A violated unique column: the transaction is rolled back. */
    | ConstraintViolation(message: string)
      /** A single-result query that matched more than one row. */
    | NonUniqueResult

  /** The outcome of one service call. */
  datatype Result<+T> = Ok(value: T) | Err(error: Error) {

    predicate IsFailure() {
      Err?
    }

    function PropagateFailure<U>(): Result<U>
      requires Err?
    {
      Err(error)
    }

    function Extract(): T
      requires Ok?
    {
      value
    }
  }

  /** Converts an absent lookup into the given error. */
  function OrError<T>(o: Option<T>, e: Error): (r: Result<T>)
    ensures r.Ok? <==> o.Some?
    ensures r.Ok? ==> r.value == o.value
    ensures r.Err? ==> r.error == e
  {
    match o
    case Some(v) => Ok(v)
    case None => Err(e)
  }
}
