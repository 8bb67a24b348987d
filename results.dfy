/** Outcomes shared by the survey model: the two failures the survey raises and
    a Result carrying either a value or one of them. */
module Results {

  datatype Option<+T> = None | Some(value: T)

  /** The failures the survey throws. */
  datatype Error =
    | NoQuestions   // a read of a position outside the question list
    | NotAChoice    // a multiple-choice question given a value outside the enumeration

  datatype Result<+T> = Ok(value: T) | Err(error: Error)
}
