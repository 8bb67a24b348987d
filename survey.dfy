/** The survey runner: an ordered list of question objects and a cursor on
    the question currently available to answer. Questions are objects shared
    with the caller, so an answer recorded through the survey is seen through
    every reference to that question. */
module Surveys {
  import opened Results
  import opened Questions
  import opened SurveySpec

  /** One survey question. Its answer is the only field the survey writes. */
  class Question {
    const num: int
    const text: string
    // present exactly on multiple-choice questions
    const rightAnswer: Option<Value>
    var answer: Value

    constructor (num: int, text: string, answer: Value, rightAnswer: Option<Value>)
      ensures View() == QuestionView(num, text, rightAnswer, answer)
    {
      this.num := num;
      this.text := text;
      this.rightAnswer := rightAnswer;
      this.answer := answer;
    }

    predicate IsMultipleChoice()
      reads this
    {
      View().IsMultipleChoice()
    }

    function View(): QuestionView
      reads this
    {
      QuestionView(num, text, rightAnswer, answer)
    }
  }

  class Survey {
    var questions: seq<Question>
    var cursor: int

    /** The cursor starts at 0 and only ever moves forward. */
    ghost predicate Valid()
      reads this
    {
      0 <= cursor
    }

    /** The list and the cursor as a value. */
    function State(): SurveyState<Question>
      reads this
    {
      SurveyState(questions, cursor)
    }

    /** A survey with no questions, starting at index 0. */
    constructor ()
      ensures Valid()
      ensures questions == [] && cursor == 0
      ensures State() == Init()
    {
      questions := [];
      cursor := 0;
    }

    /** The current question; NoQuestions when the cursor is outside the
        list. Changes nothing. */
    method GetQuestion() returns (r: Result<Question>)
      ensures r.Ok? <==> 0 <= cursor < |questions|
      ensures r.Ok? ==> r.value == questions[cursor]
      ensures r.Err? ==> r.error == NoQuestions
    {
      if 0 <= cursor < |questions| {
        r := Ok(questions[cursor]);
      } else {
        r := Err(NoQuestions);
      }
    }

    /** Moves the cursor forward, then returns the question there. The
        cursor moves even when the read then fails. */
    method GetNextQuestion() returns (r: Result<Question>)
      requires Valid()
      modifies this
      ensures Valid()
      ensures questions == old(questions) && cursor == old(cursor) + 1
      ensures State() == Step(old(State()), Next)
      ensures r.Ok? <==> old(cursor) + 1 < |questions|
      ensures r.Ok? ==> r.value == questions[old(cursor) + 1]
      ensures r.Err? ==> r.error == NoQuestions
      ensures r == Current(State())
    {
      cursor := cursor + 1;
      if 0 <= cursor < |questions| {
        r := Ok(questions[cursor]);
      } else {
        r := Err(NoQuestions);
      }
    }

    /** Every question, in order; the list may be empty. */
    method GetAllQuestions() returns (qs: seq<Question>)
      ensures qs == questions
    {
      qs := questions;
    }

    /** Appends one question. In the shipped source text this method sits
        inside a comment (its doc comment is closed with `* /`), so the
        class as written has no addQuestion; this is the evident intent. */
    method AddQuestion(q: Question)
      requires Valid()
      modifies this
      ensures Valid()
      ensures questions == old(questions) + [q] && cursor == old(cursor)
      ensures State() == Step(old(State()), Add(q))
    {
      questions := questions + [q];
    }

    /** Appends several questions, keeping their order. */
    method AddManyQuestions(sq: seq<Question>)
      requires Valid()
      modifies this
      ensures Valid()
      ensures questions == old(questions) + sq && cursor == old(cursor)
      ensures State() == Step(old(State()), AddMany(sq))
    {
      questions := questions + sq;
    }

    /** The effect of a successful load: the list is replaced, the cursor is
        left where it was. */
    method ReplaceAll(parsed: seq<Question>)
      requires Valid()
      modifies this
      ensures Valid()
      ensures questions == parsed && cursor == old(cursor)
      ensures State() == Step(old(State()), Reload(parsed))
    {
      questions := parsed;
    }

    /** Records `ans` as the answer to the current question. Without a current
        question nothing happens and nothing fails. A multiple-choice question
        refuses a value outside `choiceKeys` and keeps its answer;
        `choiceKeys` holds every value whose property-name form the `in`
        operator finds on the choice enumeration object, names inherited
        from Object.prototype included. The source's doc comment promises a
        failure when there is no current question; the code does nothing. */
    method AnswerQuestion(ans: Value, choiceKeys: set<Value>) returns (r: Result<()>)
      requires Valid()
      modifies if 0 <= cursor < |questions| then {questions[cursor]} else {}
      ensures Valid()
      ensures State() == old(State()) == Step(old(State()), AnswerCurrent)
      ensures !(0 <= cursor < |questions|) ==>
        r == Ok(()) && forall i :: 0 <= i < |questions| ==> questions[i].answer == old(questions[i].answer)
      ensures 0 <= cursor < |questions| ==>
        var q := questions[cursor];
        && (r.Err? <==> q.IsMultipleChoice() && ans !in choiceKeys)
        && (r.Err? ==> r.error == NotAChoice && q.answer == old(q.answer))
        && (r.Ok? ==> q.answer == ans)
        && (match Answer(old(q.View()), ans, choiceKeys)
            case Ok(v) => r.Ok? && q.View() == v
            case Err(e) => r == Err(e) && q.View() == old(q.View()))
        && forall i :: 0 <= i < |questions| && questions[i] != q ==> questions[i].answer == old(questions[i].answer)
    {
      if 0 <= cursor < |questions| {
        var q := questions[cursor];
        if q.IsMultipleChoice() && ans !in choiceKeys {
          return Err(NotAChoice);
        }
        q.answer := ans;
      }
      r := Ok(());
    }
  }

  /** A caller's view: a question read before it is answered shows the answer
      afterwards, a multiple-choice question takes any choice and refuses
      other values, and reads fail past the end while the cursor keeps
      moving. The calls made are recorded as operations, and the survey's
      state is `Run` of them, so the lemmas about runs apply. */
  method AnsweringThroughSurvey(choiceA: Value, choiceC: Value)
    requires choiceA != choiceC
    requires Text("Hello World") !in {choiceA, choiceC}
  {
    var keys := {choiceA, choiceC};
    var q0 := new Question(0, "What is your favourite operating system?", Null, None);
    var q1 := new Question(1, "Please select 'C' to preserve your answers", Null, Some(choiceC));
    var s := new Survey();
    ghost var s0 := s.State();
    ghost var ops: seq<Op<Question>> := [];

    s.AddManyQuestions([q0, q1]);
    RunSnoc(s0, ops, AddMany([q0, q1])); ops := ops + [AddMany([q0, q1])];

    var first := s.GetQuestion();
    assert first == Ok(q0);
    var r := s.AnswerQuestion(Text("ArchLinux"), keys);
    RunSnoc(s0, ops, AnswerCurrent); ops := ops + [AnswerCurrent];
    assert r.Ok? && q0.answer == Text("ArchLinux");

    var second := s.GetNextQuestion();
    RunSnoc(s0, ops, Next); ops := ops + [Next];
    assert second == Ok(q1);
    r := s.AnswerQuestion(Text("Hello World"), keys);
    RunSnoc(s0, ops, AnswerCurrent); ops := ops + [AnswerCurrent];
    assert r == Err(NotAChoice) && q1.answer == Null;
    r := s.AnswerQuestion(choiceA, keys);
    RunSnoc(s0, ops, AnswerCurrent); ops := ops + [AnswerCurrent];
    assert r.Ok? && q1.answer == choiceA;
    assert q0.answer == Text("ArchLinux");

    var third := s.GetNextQuestion();
    RunSnoc(s0, ops, Next); ops := ops + [Next];
    assert third == Err(NoQuestions);
    r := s.AnswerQuestion(Text("late"), keys);
    RunSnoc(s0, ops, AnswerCurrent); ops := ops + [AnswerCurrent];
    assert r.Ok? && q0.answer == Text("ArchLinux") && q1.answer == choiceA;
    var all := s.GetAllQuestions();
    assert all == [q0, q1];

    // the cursor has moved once per getNextQuestion, the failed one included
    assert s.State() == Run(s0, ops);
    RunPosition(s0, ops);
    assert s.cursor == Advances(ops) == 2;
    // further calls of getNextQuestion keep failing
    AdvancePastEnd(s.State(), 3);
    assert Current(Run(s.State(), NextTimes(3))) == Err(NoQuestions);
  }
}
