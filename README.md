# Survey runner, modelled in Dafny

A model of the `Survey` class of survey-example-starter. A survey holds an
ordered list of questions and a cursor on the question currently available
to answer. It reads the current question (`getQuestion`), moves to the next
one (`getNextQuestion`), returns the whole list (`getAllQuestions`), appends
one or several questions (`addQuestion`, `addManyQuestions`), and records an
answer for the current question (`answerQuestion`). A multiple-choice
question, recognised by the presence of a `rightanswer` field, refuses any
value that the `in` operator does not find as a property name on the
`MultipleChoiceAnswer` enumeration object. Loading
questions from a file ends by replacing the list; that replacement step is
modelled as `ReplaceAll`.

Files:

- `results.dfy` (module `Results`): `Option`, the two failures
  (`NoQuestions`, `NotAChoice`) and `Result`.
- `questions.dfy` (module `Questions`): answer values, a value snapshot of a
  question (`QuestionView`) and the answering rule `Answer`, with lemmas.
- `survey_spec.dfy` (module `SurveySpec`): the list and cursor as a value
  (`SurveyState`), every public operation as an `Op`, its effect as `Step`,
  and lemmas about any sequence of operations (`Run`).
- `survey.dfy` (module `Surveys`): the classes `Question` (the answer is a
  mutable field, so an answer is visible through every reference to the
  question) and `Survey` (fields `questions` and `cursor`). Each method that
  changes the list or the cursor states its new state as
  `State() == Step(old(State()), op)`, so the lemmas of `SurveySpec` hold of
  any sequence of calls. `AnsweringThroughSurvey` is a caller that follows
  the source's tests and checks what the contracts let it conclude; it
  records its calls as operations, shows with `RunSnoc` that the survey's
  state is `Run` of them, and applies `RunPosition` and `AdvancePastEnd`.

Behaviour kept as the source has it:

- `getNextQuestion` increments the cursor before the bounds check, so the
  cursor moves even when the call fails.
- `answerQuestion` with no current question does nothing and does not fail.
  Its doc comment (src/Survey.ts:88-89) promises a failure when the question
  is null, but the code at line 96 only skips the update; the model follows
  the code.
- A multiple-choice question accepts any value the enumeration object has as
  a property name, not only its right answer.
- Replacing the list does not reset the cursor.
- `addQuestion` is commented out in the source text: the doc comment that
  opens at src/Survey.ts:68 is closed with `* /` at line 72, so the comment
  runs on to line 81 and swallows the method, although the tests call it.
  The model gives `AddQuestion` its evident meaning (append at the end).

## Model

| member | source | states |
|---|---|---|
| Surveys.Survey.constructor | src/Survey.ts:22-25 | a new survey has no questions and its cursor at 0 |
| Surveys.Survey.GetQuestion | src/Survey.ts:34-41 | succeeds iff 0 <= cursor < number of questions, and then returns the question at the cursor; otherwise fails with NoQuestions; changes nothing |
| Surveys.Survey.GetNextQuestion | src/Survey.ts:49-56 | the cursor becomes old cursor + 1 whether or not the call succeeds; returns the question at old cursor + 1 when there is one, else fails with NoQuestions; the list is unchanged |
| Surveys.Survey.GetAllQuestions | src/Survey.ts:64-66 | returns the question list as stored, in order, possibly empty |
| Surveys.Survey.AddQuestion | src/Survey.ts:73-75 | the list becomes the old list followed by the question; the cursor is unchanged |
| Surveys.Survey.AddManyQuestions | src/Survey.ts:82-84 | the list becomes the old list followed by the given questions in their order; the cursor is unchanged |
| Surveys.Survey.ReplaceAll | src/Survey.ts:133 | the list becomes the loaded one; the cursor is not reset |
| Surveys.Survey.AnswerQuestion | src/Survey.ts:93-102 | with no current question: succeeds and no answer changes; a multiple-choice current question with a non-key value: fails with NotAChoice and keeps its answer; otherwise the current question's answer becomes the value; no other question's answer, the list or the cursor changes |
| Surveys.Question.constructor | test/SurveyTest.ts:19-27 | a question holds its ordinal, text, optional right answer and initial answer |
| Questions.Answer | src/Survey.ts:97-100 | answering fails iff the question is multiple-choice and the value is outside `choiceKeys`, with NotAChoice; on success only the answer changes, to the value |
| Questions.FreeFormTakesAnything | src/Survey.ts:97-100 | a question without a right answer accepts every value |
| Questions.AnyChoiceIsTaken | test/SurveyTest.ts:134-140 | a multiple-choice question accepts every value in `choiceKeys`, whatever its right answer |
| SurveySpec.RunPosition | src/Survey.ts:22-140 | over any sequence of operations the cursor grows by exactly the number of getNextQuestion calls, so it never decreases |
| SurveySpec.RunQuestions | src/Survey.ts:73-84 | without a reload the list is the old list followed by everything appended, in order |
| SurveySpec.RunAfterReload | src/Survey.ts:128-134 | after a reload the list is the loaded list followed by what was appended since, and the cursor keeps counting from before the reload |
| SurveySpec.EmptyUntilAdded | test/SurveyTest.ts:64-77 | a new survey to which nothing is added keeps an empty list, and reading the current question fails with NoQuestions |
| SurveySpec.AdvancePastEnd | src/Survey.ts:49-56 | once the cursor has been advanced past the last question, the list is unchanged and every read fails with NoQuestions |
| SurveySpec.AdvanceReads | src/Survey.ts:49-56 | the j-th getNextQuestion in a row returns the question j places after the starting cursor, or NoQuestions when there is none |

## Left out

- `getFileInformation` (src/Survey.ts:111-119): reading a file through Node's
  `fs` with callbacks and a Promise is I/O and is not modelled.
- `loadQuestionsFromFile` (src/Survey.ts:128-140): the asynchronous read,
  `JSON.parse`, the logging and the rejection paths are not modelled; only
  the replacement of the list on success is, as `ReplaceAll`.
- The `MultipleChoiceAnswer` enumeration is defined in src/ISurveyQuestion.ts,
  which is not part of this model. `choiceKeys`, a parameter of
  `AnswerQuestion`, stands for every value whose property-name form the `in`
  operator at src/Survey.ts:97 finds on the enumeration object: its member
  names, the reverse-mapped numbers of a numeric enumeration, and the names
  it inherits from `Object.prototype` (`"toString"`, `"constructor"`,
  `"valueOf"`, `"hasOwnProperty"`, ...). The conversion of a value to a
  property name and the prototype lookup themselves are not modelled.
- Answers are `Null`, text or integers; floating-point answers are not
  modelled.
- The JavaScript truthiness test on the current question (an entry that is
  `null`, `0` or `""` in an untyped list) is not modelled: a question exists
  at the cursor exactly when the cursor is within the list.
- `getAllQuestions` returns the live array in the source, so a later `push`
  by `addQuestion` would show through an earlier result; the model returns
  the list as a value, and only the question objects in it are shared.
- Question ordinals (`num`) are stored but never checked by the survey; the
  test that claims to check they are consecutive checks nothing.
