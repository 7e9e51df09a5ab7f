/**
 * The exceptions the contract engine raises or lets escape, and the
 * failure-compatible result types that carry them.
 *
 * NeuronCheck declares an exception root with three kinds below it: a
 * misuse of the declaration facility, a misuse of the keyword registry and
 * the runtime contract violation.  The core also lets a few of Ruby's own
 * errors escape (a NameError from a condition block, an ArgumentError from
 * a keyword called with the wrong number of parameters, ...); those are
 * `RubyError`s named by their Ruby class.
 */
module Errors {

  datatype Option<+T> = None | Some(value: T)

  datatype Error =
    | DeclarationError(message: string)
    | PluginError(message: string)
      /** NeuronCheckError: an argument, return value, attribute value or assertion failed */
    | NeuronCheckError(message: string)
    | RubyError(className: string, message: string)

  datatype Result<+T> = Ok(value: T) | Err(error: Error) {
    predicate IsFailure() { Err? }

    function PropagateFailure<U>(): Result<U>
      requires Err?
    {
      Err(error)
    }

    function Extract(): T
      requires Ok?
    {
      value
    }
  }

  /** The result of an operation that returns nothing when it succeeds. */
  datatype Outcome = Pass | Fail(error: Error) {
    predicate IsFailure() { Fail? }

    function PropagateFailure(): Outcome
      requires Fail?
    {
      this
    }
  }

  /** Forgets the value of a result. */
  function ToOutcome<T>(r: Result<T>): (o: Outcome)
    ensures o.Pass? <==> r.Ok?
    ensures r.Err? ==> o == Fail(r.error)
  {
    match r
    case Ok(_) => Pass
    case Err(e) => Fail(e)
  }
}
