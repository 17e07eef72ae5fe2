/** `POST /api/v1/scores`: truthiness validation of the four fields, the
    total and average of the answer values, and the record handed to the
    insert. */
module ScoresRoute {

  import opened Wrappers
  import opened JsModel
  import opened ApiCommon

  const MissingFields: string := "Todos os campos são obrigatórios"
  const SaveFailed: string := "Erro ao salvar pontuação"
  const Saved: string := "Pontuação salva com sucesso"

  /** The `answers` field: a falsy value, or an object from question ids to
      the chosen values. */
  datatype AnswersField = FalsyAnswers | AnswersObject(entries: map<nat, int>)

  /** The destructured request body. */
  datatype ScoreBody = ScoreBody(userId: JsValue, step: JsValue, answers: AnswersField, kind: JsValue)

  /** `average_score`: a quotient, or NaN for `0 / 0`. */
  datatype Average = NaN | Mean(value: real)

  /** The row handed to `.insert([...])`. */
  datatype ScoreRecord = ScoreRecord(
    userId: JsValue,
    step: JsValue,
    answers: map<nat, int>,
    kind: JsValue,
    totalScore: int,
    averageScore: Average,
    createdAt: string)

  /** The 200 body. */
  datatype SavedBody<R> = SavedBody(message: string, score: Option<R>)

  /** What one request does: the record inserted, if any, and the reply. */
  datatype Outcome<R> = Outcome(inserted: Option<ScoreRecord>, reply: Reply<SavedBody<R>>)

  /** The validation test: all four fields truthy (an object is always truthy). */
  predicate FieldsPresent(b: ScoreBody) {
    Truthy(b.userId) && Truthy(b.step) && b.answers.AnswersObject? && Truthy(b.kind)
  }

  /** `Object.values(answers).reduce((sum, score) => sum + score, 0)`. */
  function TotalScore(answers: map<nat, int>): int {
    Sum(Values(answers))
  }

  /** `totalScore / Object.keys(answers).length`, unguarded. */
  function AverageScore(answers: map<nat, int>): (r: Average)
    ensures r.NaN? <==> |answers| == 0
  {
    if |answers| == 0 then NaN
    else Mean(TotalScore(answers) as real / |answers| as real)
  }

  /** The average times the number of answers gives back the total. */
  lemma AverageTimesCount(answers: map<nat, int>)
    requires |answers| > 0
    ensures AverageScore(answers).value * (|answers| as real) == TotalScore(answers) as real
  {
    MeanTimesCount(AverageScore(answers), TotalScore(answers) as real, |answers| as real);
  }

  lemma MeanTimesCount(avg: Average, total: real, count: real)
    requires count != 0.0 && avg == Mean(total / count)
    ensures avg.value * count == total
  {
    QuotientTimesDivisor(total, count);
  }

  lemma QuotientTimesDivisor(total: real, n: real)
    requires n != 0.0
    ensures (total / n) * n == total
  {
  }

  /** The handler. `body` is `None` when `request.json()` throws; `now` is
      `new Date().toISOString()`; `store` is the insert's result. */
  function Post<R>(body: Option<ScoreBody>, now: string, store: StoreResult<R>): (out: Outcome<R>)
    ensures out.inserted.Some? <==> body.Some? && FieldsPresent(body.value)
    ensures body.None? ==> out.reply == Failure(500, InternalError)
    ensures body.Some? && !FieldsPresent(body.value) ==> out.reply == Failure(400, MissingFields)
    ensures out.inserted.Some? ==>
              var b := body.value;
              var rec := out.inserted.value;
              rec.userId == b.userId && rec.step == b.step && rec.answers == b.answers.entries
              && rec.kind == b.kind && rec.createdAt == now
              && rec.totalScore == Sum(Values(b.answers.entries))
              && rec.averageScore == AverageScore(b.answers.entries)
    ensures out.inserted.Some? && store.StoreError? ==> out.reply == Failure(500, SaveFailed)
    ensures out.inserted.Some? && store.Rows? ==> out.reply == Ok(SavedBody(Saved, First(store.rows)))
  {
    match body
    case None => Outcome(None, Failure(500, InternalError))
    case Some(b) =>
      if !FieldsPresent(b) then Outcome(None, Failure(400, MissingFields))
      else
        var answers := b.answers.entries;
        var rec := ScoreRecord(b.userId, b.step, answers, b.kind, TotalScore(answers), AverageScore(answers), now);
        match store
        case StoreError => Outcome(Some(rec), Failure(500, SaveFailed))
        case Rows(rows) => Outcome(Some(rec), Ok(SavedBody(Saved, First(rows))))
  }

  /** A step of 0 is falsy, so it is refused like a missing step. */
  lemma StepZeroRejected<R>(b: ScoreBody, now: string, store: StoreResult<R>)
    requires b.step == Num(0)
    ensures Post(Some(b), now, store) == Outcome(None, Failure(400, MissingFields))
  {
  }

  /** An empty answers object passes validation and is stored with total 0
      and the average NaN. */
  lemma EmptyAnswersStoreNaN<R>(b: ScoreBody, now: string, store: StoreResult<R>)
    requires Truthy(b.userId) && Truthy(b.step) && Truthy(b.kind)
    requires b.answers == AnswersObject(map[])
    ensures var out := Post(Some(b), now, store);
            out.inserted.Some? && out.inserted.value.totalScore == 0 && out.inserted.value.averageScore == NaN
  {
    assert SortedKeys({}) == [];
  }

  /** When every answer is a Likert value in 1..5, the total lies between
      the count and five times the count, and a non-empty average in [1, 5]. */
  lemma {:induction false} LikertAverageInRange(answers: map<nat, int>)
    requires forall q :: q in answers ==> 1 <= answers[q] <= 5
    ensures |answers| <= TotalScore(answers) <= 5 * |answers|
    ensures |answers| > 0 ==> 1.0 <= AverageScore(answers).value <= 5.0
  {
    var vs := Values(answers);
    forall i | 0 <= i < |vs|
      ensures 1 <= vs[i] <= 5
    {
      assert vs[i] in vs;
      var q :| q in answers && answers[q] == vs[i];
    }
    SumBounds(vs, 1, 5);
    if |answers| > 0 {
      AverageWithinBounds(answers);
    }
  }

  /** The average of a total between the count and five times the count. */
  lemma AverageWithinBounds(answers: map<nat, int>)
    requires |answers| > 0 && |answers| <= TotalScore(answers) <= 5 * |answers|
    ensures 1.0 <= AverageScore(answers).value <= 5.0
  {
    var count: int := |answers|;
    var total: int := TotalScore(answers);
    MeanWithinBounds(total as real, count as real);
  }

  /** A total between one and five times a positive count has its mean
      in [1, 5]. */
  lemma MeanWithinBounds(total: real, n: real)
    requires n > 0.0 && n <= total <= 5.0 * n
    ensures 1.0 <= total / n <= 5.0
  {
  }
}
