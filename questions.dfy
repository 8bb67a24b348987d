/** The value side of a survey question: answer values, a snapshot of a
    question's fields, and the rule that decides whether an answer is taken. */
module Questions {
  import opened Results

  /** An answer value as the survey stores it. The survey never inspects an
      answer beyond asking whether the choice enumeration object has it as a
      property name. */
  datatype Value = Null | Text(s: string) | Number(n: int)

  /** A snapshot of one question: its ordinal, its text, its right answer when
      it is a multiple-choice question (the field's presence is the tag), and
      its current answer. */
  datatype QuestionView = QuestionView(
    num: int,
    text: string,
    rightAnswer: Option<Value>,
    answer: Value)
  {
    predicate IsMultipleChoice() {
      rightAnswer.Some?
    }
  }

  /** Answering one question: a multiple-choice question refuses any value
      outside `choiceKeys`, the values whose property-name form the `in`
      operator finds on the choice enumeration object (its own keys and the
      names it inherits from Object.prototype alike); otherwise the answer is
      replaced. */
  function Answer(q: QuestionView, ans: Value, choiceKeys: set<Value>): (r: Result<QuestionView>)
    ensures r.Err? <==> q.IsMultipleChoice() && ans !in choiceKeys
    ensures r.Err? ==> r.error == NotAChoice
    ensures r.Ok? ==> r.value.answer == ans
    ensures r.Ok? ==> r.value.num == q.num && r.value.text == q.text && r.value.rightAnswer == q.rightAnswer
  {
    if q.IsMultipleChoice() && ans !in choiceKeys then Err(NotAChoice)
    else Ok(q.(answer := ans))
  }

  /** A free-form question takes every value, whatever its kind. */
  lemma FreeFormTakesAnything(q: QuestionView, ans: Value, choiceKeys: set<Value>)
    requires !q.IsMultipleChoice()
    ensures Answer(q, ans, choiceKeys) == Ok(q.(answer := ans))
  {
  }

  /** A multiple-choice question takes every value in `choiceKeys`, not only
      its own right answer: the right answer plays no part. */
  lemma AnyChoiceIsTaken(q: QuestionView, ans: Value, choiceKeys: set<Value>)
    requires q.IsMultipleChoice() && ans in choiceKeys
    ensures Answer(q, ans, choiceKeys) == Ok(q.(answer := ans))
  {
  }
}
