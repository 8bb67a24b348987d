/** The question store and its cursor as values. A survey's state is its
    ordered question list and its cursor position; every public operation of
    the survey is an `Op`, and `Step` says what each does to the state. The
    lemmas here speak of any sequence of operations (`Run`). */
module SurveySpec {
  import opened Results

  datatype SurveyState<T> = SurveyState(questions: seq<T>, position: int)

  /** A new survey: no questions, cursor at 0. */
  function Init<T>(): SurveyState<T> {
    SurveyState([], 0)
  }

  /** The question at the cursor, or NoQuestions when the cursor is outside
      the list (an empty list included). */
  function Current<T>(s: SurveyState<T>): Result<T> {
    if 0 <= s.position < |s.questions| then Ok(s.questions[s.position]) else Err(NoQuestions)
  }

  /** The survey's public operations, with their arguments. */
  datatype Op<T> =
    | Read                   // getQuestion
    | Next                   // getNextQuestion
    | ReadAll                // getAllQuestions
    | Add(q: T)              // addQuestion
    | AddMany(qs: seq<T>)    // addManyQuestions
    | AnswerCurrent          // answerQuestion (changes a question, not the list)
    | Reload(qs: seq<T>)     // the replacement step of loadQuestionsFromFile

  /** What one operation does to the list and the cursor. `Next` moves the
      cursor whether or not the read that follows succeeds. */
  function Step<T>(s: SurveyState<T>, op: Op<T>): SurveyState<T> {
    match op
    case Read => s
    case Next => s.(position := s.position + 1)
    case ReadAll => s
    case Add(q) => s.(questions := s.questions + [q])
    case AddMany(qs) => s.(questions := s.questions + qs)
    case AnswerCurrent => s
    case Reload(qs) => s.(questions := qs)
  }

  /** The state after running `ops` in order from `s`. */
  function Run<T>(s: SurveyState<T>, ops: seq<Op<T>>): SurveyState<T>
    decreases |ops|
  {
    if ops == [] then s else Run(Step(s, ops[0]), ops[1..])
  }

  /** Running one more operation is one more step: the state a caller reaches
      call by call is `Run` of the calls made so far. */
  lemma {:induction false} RunSnoc<T>(s: SurveyState<T>, ops: seq<Op<T>>, op: Op<T>)
    ensures Run(s, ops + [op]) == Step(Run(s, ops), op)
    ensures Advances(ops + [op]) == Advances(ops) + (if op.Next? then 1 else 0)
    decreases |ops|
  {
    if ops == [] {
      assert ([op])[1..] == [];
    } else {
      assert (ops + [op])[0] == ops[0];
      assert (ops + [op])[1..] == ops[1..] + [op];
      RunSnoc(Step(s, ops[0]), ops[1..], op);
    }
  }

  /** How many of `ops` advance the cursor. */
  function Advances<T>(ops: seq<Op<T>>): nat
    decreases |ops|
  {
    if ops == [] then 0 else (if ops[0].Next? then 1 else 0) + Advances(ops[1..])
  }

  /** The questions that `op` appends to the end of the list. */
  function Added<T>(op: Op<T>): seq<T> {
    match op
    case Add(q) => [q]
    case AddMany(qs) => qs
    case _ => []
  }

  /** Everything `ops` appends, in order. */
  function Appended<T>(ops: seq<Op<T>>): seq<T>
    decreases |ops|
  {
    if ops == [] then [] else Added(ops[0]) + Appended(ops[1..])
  }

  predicate NoReload<T>(ops: seq<Op<T>>) {
    forall i :: 0 <= i < |ops| ==> !ops[i].Reload?
  }

  /** `k` calls of getNextQuestion in a row. */
  function NextTimes<T>(k: nat): (ops: seq<Op<T>>)
    ensures |ops| == k
    ensures forall i :: 0 <= i < k ==> ops[i] == Next
  {
    if k == 0 then [] else [Next] + NextTimes(k - 1)
  }

  /** The cursor moves by exactly one per getNextQuestion and by nothing
      else, so it never moves back. */
  lemma {:induction false} RunPosition<T>(s: SurveyState<T>, ops: seq<Op<T>>)
    ensures Run(s, ops).position == s.position + Advances(ops)
    ensures Run(s, ops).position >= s.position
    decreases |ops|
  {
    if ops != [] {
      RunPosition(Step(s, ops[0]), ops[1..]);
    }
  }

  /** Without a reload, the list only grows at its end: the questions already
      there keep their places and the added ones follow in the order added. */
  lemma {:induction false} RunQuestions<T>(s: SurveyState<T>, ops: seq<Op<T>>)
    requires NoReload(ops)
    ensures Run(s, ops).questions == s.questions + Appended(ops)
    decreases |ops|
  {
    if ops != [] {
      assert NoReload(ops[1..]) by {
        forall i | 0 <= i < |ops[1..]| ensures !ops[1..][i].Reload? {
          assert ops[1..][i] == ops[i + 1];
        }
      }
      assert Step(s, ops[0]).questions == s.questions + Added(ops[0]);
      RunQuestions(Step(s, ops[0]), ops[1..]);
      assert s.questions + Added(ops[0]) + Appended(ops[1..])
          == s.questions + (Added(ops[0]) + Appended(ops[1..]));
    }
  }

  /** After the last reload in `ops`, the list is the reloaded one followed by
      what was added since, and the cursor has not been reset. */
  lemma {:induction false} RunAfterReload<T>(s: SurveyState<T>, before: seq<Op<T>>, qs: seq<T>, after: seq<Op<T>>)
    requires NoReload(after)
    ensures Run(s, before + [Reload(qs)] + after).questions == qs + Appended(after)
    ensures Run(s, before + [Reload(qs)] + after).position == s.position + Advances(before) + Advances(after)
    decreases |before|
  {
    if before == [] {
      assert before + [Reload(qs)] + after == [Reload(qs)] + after;
      var t := Step(s, Reload(qs));
      assert ([Reload(qs)] + after)[1..] == after;
      RunQuestions(t, after);
      RunPosition(t, after);
    } else {
      assert (before + [Reload(qs)] + after)[0] == before[0];
      assert (before + [Reload(qs)] + after)[1..] == before[1..] + [Reload(qs)] + after;
      RunAfterReload(Step(s, before[0]), before[1..], qs, after);
      RunPosition(s, [before[0]]);
      assert Advances(before) == (if before[0].Next? then 1 else 0) + Advances(before[1..]);
    }
  }

  /** Until something is added, every read fails: a new survey answers
      getQuestion and getNextQuestion with NoQuestions however often they are
      called. */
  lemma {:induction false} EmptyUntilAdded<T>(ops: seq<Op<T>>)
    requires NoReload(ops) && Appended(ops) == []
    ensures Run(Init<T>(), ops).questions == []
    ensures Current(Run(Init<T>(), ops)) == Err(NoQuestions)
  {
    RunQuestions(Init<T>(), ops);
  }

  /** Once the cursor has been advanced past the last question every further
      read fails. */
  lemma {:induction false} AdvancePastEnd<T>(s: SurveyState<T>, k: nat)
    requires |s.questions| <= s.position + k
    ensures Run(s, NextTimes(k)) == SurveyState(s.questions, s.position + k)
    ensures Current(Run(s, NextTimes(k))) == Err(NoQuestions)
    decreases k
  {
    if k > 0 {
      var ops := NextTimes<T>(k);
      assert ops[0] == Next;
      assert ops[1..] == NextTimes(k - 1);
      AdvancePastEnd(Step(s, Next), k - 1);
    }
  }

  /** The j-th of a row of getNextQuestion calls from `s` returns the
      question j places after the cursor `s` started at, when there is one. */
  lemma {:induction false} AdvanceReads<T>(s: SurveyState<T>, j: nat)
    requires 0 <= s.position
    ensures Current(Run(s, NextTimes(j))) ==
      (if s.position + j < |s.questions| then Ok(s.questions[s.position + j]) else Err(NoQuestions))
  {
    RunPosition(s, NextTimes(j));
    CountNext<T>(j);
    assert NoReload(NextTimes<T>(j));
    RunQuestions(s, NextTimes(j));
    AppendedNothing<T>(j);
  }

  lemma {:induction false} CountNext<T>(k: nat)
    ensures Advances(NextTimes<T>(k)) == k
    decreases k
  {
    if k > 0 {
      assert NextTimes<T>(k)[1..] == NextTimes<T>(k - 1);
      CountNext<T>(k - 1);
    }
  }

  lemma {:induction false} AppendedNothing<T>(k: nat)
    ensures Appended(NextTimes<T>(k)) == []
    decreases k
  {
    if k > 0 {
      assert NextTimes<T>(k)[1..] == NextTimes<T>(k - 1);
      AppendedNothing<T>(k - 1);
    }
  }
}
