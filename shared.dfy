/** Types shared by the intake form, the decision engine, the booking form
    and the flow controller that sequences them. */
module Shared {

  /** The record the intake form hands to the flow controller on a successful
      submit (the `SymptomData` interface of SymptomChecker.tsx). */
  datatype SymptomData = SymptomData(
    symptoms: seq<string>,
    duration: string,
    severity: int,
    additionalInfo: string)

  /** A value that may be absent (a nullable reference in the source). */
  datatype Option<+T> = None | Some(value: T)

  /** An outcome carrying either a value or the reason it was refused. */
  datatype Result<+T, +E> = Success(value: T) | Failure(error: E)
}
