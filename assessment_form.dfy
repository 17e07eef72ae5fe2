/** The single-page assessment of `src/app/form/page.tsx`: the navigator,
    `handleAnswerSelect`, and `handleSubmit`, which turns the answers into
    one row per answered question and inserts them. The question list is
    the one the loading effect fetched, handed to the constructor; the
    insert's outcome is handed in. */
module AssessmentForm {

  import opened Wrappers
  import opened JsModel
  import opened Navigator

  const NoSessionError: string := "Sessão de usuário não encontrada. Por favor, faça login novamente."
  const SubmitError: string := "Ocorreu um erro ao enviar suas respostas. Tente novamente."
  const DashboardRoute: string := "/dashboard"

  /** One row of `respostas_usuarios`. */
  datatype AnswerRow = AnswerRow(userId: string, questionId: nat, value: int)

  /** The rows built by `Object.entries(respostas).map(...)`: one per key,
      in ascending key order, with the key read back as a number. */
  function RowsFor(answers: map<nat, int>, userId: string): (rows: seq<AnswerRow>)
    ensures |rows| == |answers|
  {
    var keys := SortedKeys(answers.Keys);
    seq(|keys|, i requires 0 <= i < |keys| => AnswerRow(userId, keys[i], answers[keys[i]]))
  }

  /** The rows match the answered questions one to one: each row is an
      answer of the user, every answered question has a row, and no
      question has two. */
  lemma {:induction false} RowsMatchAnswers(answers: map<nat, int>, userId: string)
    ensures var rows := RowsFor(answers, userId);
            (forall i :: 0 <= i < |rows| ==>
               rows[i].userId == userId && rows[i].questionId in answers
               && rows[i].value == answers[rows[i].questionId])
            && (forall q :: q in answers ==> exists i :: 0 <= i < |rows| && rows[i].questionId == q)
            && (forall i, j :: 0 <= i < j < |rows| ==> rows[i].questionId < rows[j].questionId)
  {
    var keys := SortedKeys(answers.Keys);
    var rows := RowsFor(answers, userId);
    forall i | 0 <= i < |rows|
      ensures rows[i].userId == userId && rows[i].questionId in answers
              && rows[i].value == answers[rows[i].questionId]
    {
      assert rows[i] == AnswerRow(userId, keys[i], answers[keys[i]]);
    }
    forall i, j | 0 <= i < j < |rows|
      ensures rows[i].questionId < rows[j].questionId
    {
      assert rows[i].questionId == keys[i] && rows[j].questionId == keys[j];
    }
    forall q | q in answers
      ensures exists i :: 0 <= i < |rows| && rows[i].questionId == q
    {
      var i :| 0 <= i < |keys| && keys[i] == q;
      assert rows[i].questionId == q;
    }
  }

  /** What the insert produced: success, or an error (returned or thrown). */
  datatype InsertResult = InsertOk | InsertFailed

  /** The page's state, with the row batches it has inserted and the last
      `router.push`. */
  datatype FormState = FormState(
    questionIds: seq<nat>,
    answers: map<nat, int>,
    index: int,
    submitting: bool,
    error: Option<string>,
    inserts: seq<seq<AnswerRow>>,
    navigation: Option<string>)

  /** The state after `handleSubmit`, with `user` the signed-in user's id or
      `None`. Success leaves `submitting` set. */
  function SubmitOutcome(s: FormState, user: Option<string>, result: InsertResult): FormState {
    if user.None? then s.(error := Some(NoSessionError))
    else
      var sent := s.(submitting := true, error := None, inserts := s.inserts + [RowsFor(s.answers, user.value)]);
      match result
      case InsertOk => sent.(navigation := Some(DashboardRoute))
      case InsertFailed => sent.(error := Some(SubmitError), submitting := false)
  }

  /** The enabled test of the final button: not submitting, on the last
      question, and that question answered. */
  predicate SubmitEnabled(s: FormState) {
    !s.submitting && s.index == |s.questionIds| - 1
    && 0 <= s.index && s.questionIds[s.index] in s.answers
  }

  /** The page state, updated in place by the handlers. */
  class FormPage {
    var questionIds: seq<nat>
    var answers: map<nat, int>
    var index: int
    var submitting: bool
    var error: Option<string>
    var inserts: seq<seq<AnswerRow>>
    var navigation: Option<string>

    function Snapshot(): FormState
      reads this
    {
      FormState(questionIds, answers, index, submitting, error, inserts, navigation)
    }

    /** The page once the questions, in id order, have loaded. */
    constructor (questionIds: seq<nat>)
      ensures Snapshot() == FormState(questionIds, map[], 0, false, None, [], None)
    {
      this.questionIds := questionIds;
      answers := map[];
      index := 0;
      submitting := false;
      error := None;
      inserts := [];
      navigation := None;
    }

    /** `handleAnswerSelect`. */
    method HandleAnswerSelect(questionId: nat, value: int)
      modifies this
      ensures Snapshot() == old(Snapshot()).(answers := old(answers)[questionId := value])
    {
      answers := answers[questionId := value];
    }

    /** `handleNext`. */
    method HandleNext()
      modifies this
      ensures Snapshot() == old(Snapshot()).(index := NextIndex(old(index), |questionIds|))
    {
      if index < |questionIds| - 1 {
        index := index + 1;
      }
    }

    /** `handlePrev`. */
    method HandlePrev()
      modifies this
      ensures Snapshot() == old(Snapshot()).(index := PreviousIndex(old(index)))
    {
      if index > 0 {
        index := index - 1;
      }
    }

    /** `handleSubmit`. */
    method HandleSubmit(user: Option<string>, result: InsertResult)
      modifies this
      ensures Snapshot() == SubmitOutcome(old(Snapshot()), user, result)
    {
      if user.None? {
        error := Some(NoSessionError);
        return;
      }
      submitting := true;
      error := None;
      var rows := RowsFor(answers, user.value);
      inserts := inserts + [rows];
      if result == InsertOk {
        navigation := Some(DashboardRoute);
      } else {
        // catch
        error := Some(SubmitError);
        submitting := false;
      }
    }
  }

  /** Without a user nothing is inserted and only the error is set. */
  lemma NoUserInsertsNothing(s: FormState, result: InsertResult)
    ensures SubmitOutcome(s, None, result) == s.(error := Some(NoSessionError))
  {
  }

  /** With a user exactly one batch, the rows of the current answers, is
      inserted; success navigates to the dashboard with `submitting`
      still set, failure sets the error and clears `submitting`. */
  lemma SubmitWithUser(s: FormState, userId: string, result: InsertResult)
    ensures var t := SubmitOutcome(s, Some(userId), result);
            t.inserts == s.inserts + [RowsFor(s.answers, userId)]
            && t.answers == s.answers && t.index == s.index
            && (result == InsertOk ==> t.navigation == Some(DashboardRoute) && t.submitting && t.error.None?)
            && (result == InsertFailed ==> t.navigation == s.navigation && !t.submitting && t.error == Some(SubmitError))
  {
  }

  /** Only the last question is checked before submitting: with two
      questions and only the second answered, the button is enabled and
      the batch holds a single row. Clicking through the page does not reach
      this state, since "Próxima" stays disabled until the current question
      is answered and answers are never removed; it shows what the final
      button tests, not a reachable gap. */
  lemma {:induction false} SubmitChecksOnlyLastQuestion(userId: string)
    ensures var s := FormState([1, 2], map[2 := 4], 1, false, None, [], None);
            SubmitEnabled(s) && 1 !in s.answers
            && SubmitOutcome(s, Some(userId), InsertOk).inserts == [[AnswerRow(userId, 2, 4)]]
  {
    var answers: map<nat, int> := map[2 := 4];
    assert answers.Keys == {2};
    var keys := SortedKeys(answers.Keys);
    assert keys == [2];
    assert RowsFor(answers, userId) == [AnswerRow(userId, 2, 4)];
  }
}
