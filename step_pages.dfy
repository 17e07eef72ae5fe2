/** The Likert step pages `src/app/form/step2/page.tsx`,
    `src/app/form/step3/page.tsx` and `src/app/form/step4/page.tsx`: the
    question navigator, `handleAnswer`, and `handleSubmit` with its
    completeness gate, the score request, and on step 4 the completion
    request that follows it. The page state is a class that the handlers
    update in place; the replies to `fetch` are handed in. */
module StepPages {

  import opened Wrappers
  import opened Navigator

  datatype Step = Personality | Competency | Final

  /** The ids of each step's question list, in display order. */
  function QuestionIds(step: Step): seq<int> {
    match step
    case Personality => [1, 2, 3, 4, 5, 6, 7, 8, 9, 10]
    case Competency => [11, 12, 13, 14, 15, 16, 17, 18, 19, 20]
    case Final => [21, 22, 23, 24, 25]
  }

  /** The `step` field of the score request. */
  function StepNumber(step: Step): int {
    match step
    case Personality => 2
    case Competency => 3
    case Final => 4
  }

  /** The `type` field of the score request. */
  function ScoreType(step: Step): string {
    match step
    case Personality => "personality"
    case Competency => "competency"
    case Final => "final"
  }

  /** Where a successful submit navigates. */
  function NextRoute(step: Step): string {
    match step
    case Personality => "/form/step3"
    case Competency => "/form/step4"
    case Final => "/form/finish"
  }

  const IncompleteAlert: string := "Por favor, responda todas as perguntas antes de continuar."
  const SaveAlert: string := "Erro ao salvar respostas. Tente novamente."

  /** A request body the page sends: to `/api/v1/scores` or to
      `/api/v1/candidates/complete`. */
  datatype Request = ScoreRequest(userId: string, step: int, answers: map<int, int>, kind: string)
                   | CompletionRequest(userId: string, completed: bool, completedAt: string)

  /** What awaiting `fetch` produced: a rejection, or a response with its
      `ok` flag. */
  datatype FetchResult = Rejected | Responded(ok: bool)

  /** The page's state, with the requests it has sent, the last
      `router.push` and the alerts it has raised. */
  datatype PageState = PageState(
    currentQuestion: int,
    answers: map<int, int>,
    loading: bool,
    requests: seq<Request>,
    navigation: Option<string>,
    alerts: seq<string>)

  const Initial: PageState := PageState(0, map[], false, [], None, [])

  /** The state after `handleSubmit`: the length gate, then the score
      request; only an OK reply continues, and on step 4 the completion
      request is sent and its reply is not inspected, only a rejection
      stops the navigation. `finally` clears `loading` on every path past
      the gate. */
  function SubmitOutcome(step: Step, s: PageState, userId: string, now: string,
                         scoreReply: FetchResult, completionReply: FetchResult): PageState
  {
    if |s.answers| < |QuestionIds(step)| then s.(alerts := s.alerts + [IncompleteAlert])
    else
      var sent := s.requests + [ScoreRequest(userId, StepNumber(step), s.answers, ScoreType(step))];
      if scoreReply != Responded(true) then
        s.(requests := sent, alerts := s.alerts + [SaveAlert], loading := false)
      else if step != Final then
        s.(requests := sent, navigation := Some(NextRoute(step)), loading := false)
      else
        var sentBoth := sent + [CompletionRequest(userId, true, now)];
        if completionReply.Rejected? then
          s.(requests := sentBoth, alerts := s.alerts + [SaveAlert], loading := false)
        else
          s.(requests := sentBoth, navigation := Some(NextRoute(step)), loading := false)
  }

  /** A step page, its React state updated in place by the handlers. */
  class StepPage {
    const step: Step
    var currentQuestion: int
    var answers: map<int, int>
    var loading: bool
    var requests: seq<Request>
    var navigation: Option<string>
    var alerts: seq<string>

    function Snapshot(): PageState
      reads this
    {
      PageState(currentQuestion, answers, loading, requests, navigation, alerts)
    }

    constructor (step: Step)
      ensures this.step == step && Snapshot() == Initial
    {
      this.step := step;
      currentQuestion := 0;
      answers := map[];
      loading := false;
      requests := [];
      navigation := None;
      alerts := [];
    }

    /** `handleAnswer`. */
    method HandleAnswer(questionId: int, answer: int)
      modifies this
      ensures Snapshot() == old(Snapshot()).(answers := old(answers)[questionId := answer])
    {
      answers := answers[questionId := answer];
    }

    /** `handleNext`. */
    method HandleNext()
      modifies this
      ensures Snapshot() == old(Snapshot()).(currentQuestion := NextIndex(old(currentQuestion), |QuestionIds(step)|))
    {
      if currentQuestion < |QuestionIds(step)| - 1 {
        currentQuestion := currentQuestion + 1;
      }
    }

    /** `handlePrevious`. */
    method HandlePrevious()
      modifies this
      ensures Snapshot() == old(Snapshot()).(currentQuestion := PreviousIndex(old(currentQuestion)))
    {
      if currentQuestion > 0 {
        currentQuestion := currentQuestion - 1;
      }
    }

    /** `handleSubmit`, for the signed-in user `userId`; `now` is the
        `completedAt` timestamp of step 4. */
    method HandleSubmit(userId: string, now: string, scoreReply: FetchResult, completionReply: FetchResult)
      modifies this
      ensures Snapshot() == SubmitOutcome(step, old(Snapshot()), userId, now, scoreReply, completionReply)
    {
      if |answers| < |QuestionIds(step)| {
        alerts := alerts + [IncompleteAlert];
        return;
      }
      loading := true;
      requests := requests + [ScoreRequest(userId, StepNumber(step), answers, ScoreType(step))];
      var failed := scoreReply != Responded(true);
      if !failed && step == Final {
        requests := requests + [CompletionRequest(userId, true, now)];
        failed := completionReply.Rejected?;
      }
      if failed {
        // catch
        alerts := alerts + [SaveAlert];
      } else {
        navigation := Some(NextRoute(step));
      }
      // finally
      loading := false;
    }
  }

  /** What the page keeps true: the index is in range, and every recorded
      answer belongs to one of the step's questions and is a value of the
      five-point scale. */
  predicate Consistent(step: Step, s: PageState) {
    0 <= s.currentQuestion < |QuestionIds(step)|
    && forall q :: q in s.answers ==> q in QuestionIds(step) && 1 <= s.answers[q] <= 5
  }

  /** Clicking option `option` (one of the buttons 1..5) of the shown
      question overwrites that question's entry only and keeps the page
      consistent. */
  lemma AnswerKeepsConsistent(step: Step, s: PageState, option: int)
    requires Consistent(step, s) && 1 <= option <= 5
    ensures var id := QuestionIds(step)[s.currentQuestion];
            var t := s.(answers := s.answers[id := option]);
            Consistent(step, t)
            && t.answers[id] == option
            && forall q :: q != id ==> (q in t.answers <==> q in s.answers) && (q in s.answers ==> t.answers[q] == s.answers[q])
  {
  }

  /** Next and Previous keep the page consistent. */
  lemma NavigationKeepsConsistent(step: Step, s: PageState)
    requires Consistent(step, s)
    ensures Consistent(step, s.(currentQuestion := NextIndex(s.currentQuestion, |QuestionIds(step)|)))
    ensures Consistent(step, s.(currentQuestion := PreviousIndex(s.currentQuestion)))
  {
    NavigationStaysInRange(s.currentQuestion, |QuestionIds(step)|);
  }

  /** The ids of each step are distinct. */
  lemma IdsDistinct(step: Step)
    ensures forall i, j :: 0 <= i < j < |QuestionIds(step)| ==> QuestionIds(step)[i] != QuestionIds(step)[j]
  {
  }

  /** A set inside the elements of a sequence of distinct values is
      no larger than the sequence, and as large only when it holds all of
      them. */
  lemma {:induction false} SubsetOfDistinct(keys: set<int>, ids: seq<int>)
    requires forall i, j :: 0 <= i < j < |ids| ==> ids[i] != ids[j]
    requires forall k :: k in keys ==> k in ids
    ensures |keys| <= |ids|
    ensures |keys| == |ids| <==> forall id :: id in ids ==> id in keys
    decreases |ids|
  {
    if ids == [] {
      assert forall k :: k in keys ==> false;
      assert keys == {};
    } else {
      var last := ids[|ids| - 1];
      var front := ids[..|ids| - 1];
      var rest := keys - {last};
      forall k | k in rest
        ensures k in front
      {
        var i :| 0 <= i < |ids| && ids[i] == k;
        assert i != |ids| - 1;
        assert front[i] == k;
      }
      SubsetOfDistinct(rest, front);
      assert last !in front;
      if last in keys {
        assert |keys| == |rest| + 1;
        forall id | id in ids && id != last
          ensures id in front
        {
          var i :| 0 <= i < |ids| && ids[i] == id;
          assert front[i] == id;
        }
      } else {
        assert rest == keys;
      }
    }
  }

  /** On a consistent page the length gate `Object.keys(answers).length <
      n` passes exactly when every question of the step has an answer. */
  lemma {:induction false} GatePassesIffAllAnswered(step: Step, s: PageState)
    requires Consistent(step, s)
    ensures |s.answers| >= |QuestionIds(step)| <==> forall id :: id in QuestionIds(step) ==> id in s.answers
  {
    IdsDistinct(step);
    SubsetOfDistinct(s.answers.Keys, QuestionIds(step));
  }

  /** An incomplete page only raises the alert: nothing is sent and there
      is no navigation. */
  lemma IncompleteSubmitSendsNothing(step: Step, s: PageState, userId: string, now: string,
                                     scoreReply: FetchResult, completionReply: FetchResult)
    requires |s.answers| < |QuestionIds(step)|
    ensures SubmitOutcome(step, s, userId, now, scoreReply, completionReply) == s.(alerts := s.alerts + [IncompleteAlert])
  {
  }

  /** Past the gate, the score request carries the step's number and type
      and the answers unchanged, `loading` ends cleared, and the page
      navigates, to the next step and without an alert, exactly when the
      score reply was OK (and, on step 4, the completion request did not
      reject). */
  lemma {:induction false} SubmitPastGate(step: Step, s: PageState, userId: string, now: string,
                                          scoreReply: FetchResult, completionReply: FetchResult)
    requires |s.answers| >= |QuestionIds(step)|
    ensures var t := SubmitOutcome(step, s, userId, now, scoreReply, completionReply);
            |t.requests| > |s.requests|
            && t.requests[..|s.requests|] == s.requests
            && t.requests[|s.requests|] == ScoreRequest(userId, StepNumber(step), s.answers, ScoreType(step))
            && !t.loading
            && t.answers == s.answers && t.currentQuestion == s.currentQuestion
            && (t.navigation != s.navigation || t.alerts == s.alerts ==>
                  scoreReply == Responded(true) && (step == Final ==> completionReply.Responded?)
                  && t.navigation == Some(NextRoute(step)))
            && (scoreReply == Responded(true) && (step == Final ==> completionReply.Responded?) ==>
                  t.navigation == Some(NextRoute(step)) && t.alerts == s.alerts)
  {
    var sent := s.requests + [ScoreRequest(userId, StepNumber(step), s.answers, ScoreType(step))];
    assert sent[..|s.requests|] == s.requests;
    if step == Final && scoreReply == Responded(true) {
      var sentBoth := sent + [CompletionRequest(userId, true, now)];
      assert sentBoth[..|s.requests|] == s.requests;
    }
  }

  /** Step 4 sends the completion request only after an OK score reply,
      and does not read its status: a non-OK completion still navigates to
      the finish page. */
  lemma {:induction false} CompletionAfterScoreOnly(s: PageState, userId: string, now: string,
                                                    scoreReply: FetchResult, completionReply: FetchResult)
    requires |s.answers| >= |QuestionIds(Final)|
    ensures var t := SubmitOutcome(Final, s, userId, now, scoreReply, completionReply);
            (|t.requests| == |s.requests| + 2 <==> scoreReply == Responded(true))
            && (scoreReply == Responded(true) ==> t.requests[|s.requests| + 1] == CompletionRequest(userId, true, now))
            && (scoreReply == Responded(true) && completionReply == Responded(false) ==> t.navigation == Some("/form/finish"))
  {
  }

  /** Steps 2 and 3 never send a completion request. */
  lemma EarlyStepsSendOnlyTheScore(step: Step, s: PageState, userId: string, now: string,
                                   scoreReply: FetchResult, completionReply: FetchResult)
    requires step != Final && |s.answers| >= |QuestionIds(step)|
    ensures |SubmitOutcome(step, s, userId, now, scoreReply, completionReply).requests| == |s.requests| + 1
  {
  }
}
