/** Failure-compatible wrappers shared by the converter and the scenario builder,
    and the errors the modelled Java code raises as exceptions. */
module Results {

  datatype Option<+T> = None | Some(value: T)

  datatype Result<+T, +E> = Success(value: T) | Failure(error: E) {
    predicate IsFailure() {
      Failure?
    }

    function PropagateFailure<U>(): Result<U, E>
      requires Failure?
    {
      Failure(error)
    }

    function Extract(): T
      requires Success?
    {
      value
    }
  }

  datatype Outcome<+E> = Pass | Fail(error: E)

  /** The exceptions of the modelled code, one constructor per cause. */
  datatype Error =
    | MissingAlternative            // StreamUtil.getOne: no alternative present
    | AmbiguousAlternative          // StreamUtil: more than one alternative present
    | InvalidNumericLiteral(literal: string)  // Integer.valueOf / Double.parseDouble rejected the text
    | UnknownSampleRate(name: string)         // SampleRate.valueOf found no such constant
    | MissingToken(token: string)             // an optional token read although the parser left it out
    | EmptyPath                               // atPath: "path cannot be empty"
}
