/** `POST /api/v1/candidates/complete`: the `userId` check and the update
    record, whose `completed` field is `completed || true`. */
module CompleteRoute {

  import opened Wrappers
  import opened JsModel
  import opened ApiCommon

  const MissingUser: string := "ID do usuário é obrigatório"
  const UpdateFailed: string := "Erro ao atualizar candidato"
  const Completed: string := "Candidato marcado como completo"

  /** The destructured request body. */
  datatype CompleteBody = CompleteBody(userId: JsValue, completed: JsValue, completedAt: JsValue)

  /** The object handed to `.update(...)`. */
  datatype CompletionUpdate = CompletionUpdate(completed: JsValue, completedAt: JsValue, updatedAt: string)

  /** An update and its `.eq('id', userId)` filter. */
  datatype UpdateCall = UpdateCall(fields: CompletionUpdate, id: JsValue)

  datatype CompletedBody<R> = CompletedBody(message: string, candidate: Option<R>)

  datatype Outcome<R> = Outcome(update: Option<UpdateCall>, reply: Reply<CompletedBody<R>>)

  /** The handler. `body` is `None` when `request.json()` throws; `now` is
      the instant both `new Date().toISOString()` calls produce; `store` is
      the update's result. */
  function Post<R>(body: Option<CompleteBody>, now: string, store: StoreResult<R>): (out: Outcome<R>)
    ensures out.update.Some? <==> body.Some? && Truthy(body.value.userId)
    ensures body.None? ==> out.reply == Failure(500, InternalError)
    ensures body.Some? && out.update.None? ==> out.reply == Failure(400, MissingUser)
    ensures out.update.Some? ==> out.update.value.id == body.value.userId
    ensures out.update.Some? ==>
              (store.StoreError? ==> out.reply == Failure(500, UpdateFailed))
              && (store.Rows? ==> out.reply == Ok(CompletedBody(Completed, First(store.rows))))
  {
    match body
    case None => Outcome(None, Failure(500, InternalError))
    case Some(b) =>
      if !Truthy(b.userId) then Outcome(None, Failure(400, MissingUser))
      else
        var fields := CompletionUpdate(Or(b.completed, Bool(true)), Or(b.completedAt, Str(now)), now);
        var call := UpdateCall(fields, b.userId);
        match store
        case StoreError => Outcome(Some(call), Failure(500, UpdateFailed))
        case Rows(rows) => Outcome(Some(call), Ok(CompletedBody(Completed, First(rows))))
  }

  /** The written `completed` is always truthy, and is `true` whenever the
      client sent a boolean (even `false`) or nothing; `completed_at` is the
      client's value when truthy and otherwise now; `updated_at` is now. */
  lemma {:induction false} CompletionFields<R>(b: CompleteBody, now: string, store: StoreResult<R>)
    requires Truthy(b.userId) && now != ""
    ensures var fields := Post(Some(b), now, store).update.value.fields;
            Truthy(fields.completed)
            && (b.completed.Bool? || !Truthy(b.completed) ==> fields.completed == Bool(true))
            && (Truthy(b.completedAt) ==> fields.completedAt == b.completedAt)
            && (!Truthy(b.completedAt) ==> fields.completedAt == Str(now))
            && Truthy(fields.completedAt)
            && fields.updatedAt == now
  {
    var fields := Post(Some(b), now, store).update.value.fields;
    assert fields.completed == Or(b.completed, Bool(true));
    assert fields.completedAt == Or(b.completedAt, Str(now));
  }

  /** A client asking for `completed: false` is marked complete anyway. */
  lemma FalseIsOverridden<R>(userId: JsValue, completedAt: JsValue, now: string, store: StoreResult<R>)
    requires Truthy(userId)
    ensures Post(Some(CompleteBody(userId, Bool(false), completedAt)), now, store).update.value.fields.completed == Bool(true)
  {
  }
}
