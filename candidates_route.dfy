/** `/api/v1/candidates`: the `POST` validation and insert record, and the
    `GET` page/limit/offset/range arithmetic with the pagination block of its
    reply. */
module CandidatesRoute {

  import opened Wrappers
  import opened JsModel
  import opened ApiCommon

  const MissingFields: string := "Nome e email são obrigatórios"
  const CreateFailed: string := "Erro ao criar candidato"
  const Created: string := "Candidato criado com sucesso"
  const ListFailed: string := "Erro ao buscar candidatos"

  /** The destructured `POST` body. */
  datatype CandidateBody = CandidateBody(nome: JsValue, email: JsValue, telefone: JsValue, empresa: JsValue, cargo: JsValue)

  /** The row handed to `.insert([...])`. */
  datatype CandidateRecord = CandidateRecord(
    nome: JsValue, email: JsValue, telefone: JsValue, empresa: JsValue, cargo: JsValue, createdAt: string)

  datatype CreatedBody<R> = CreatedBody(message: string, candidate: Option<R>)

  datatype PostOutcome<R> = PostOutcome(inserted: Option<CandidateRecord>, reply: Reply<CreatedBody<R>>)

  /** `POST`. `body` is `None` when `request.json()` throws; `now` is
      `new Date().toISOString()`; `store` is the insert's result. */
  function Post<R>(body: Option<CandidateBody>, now: string, store: StoreResult<R>): (out: PostOutcome<R>)
    ensures out.inserted.Some? <==> body.Some? && Truthy(body.value.nome) && Truthy(body.value.email)
    ensures body.None? ==> out.reply == Failure(500, InternalError)
    ensures body.Some? && out.inserted.None? ==> out.reply == Failure(400, MissingFields)
    ensures out.inserted.Some? ==>
              var b := body.value;
              out.inserted.value == CandidateRecord(b.nome, b.email, b.telefone, b.empresa, b.cargo, now)
    ensures out.inserted.Some? ==>
              (out.reply.Failure? <==> store.StoreError?)
              && (store.StoreError? ==> out.reply == Failure(500, CreateFailed))
              && (store.Rows? ==> out.reply == Ok(CreatedBody(Created, First(store.rows))))
  {
    match body
    case None => PostOutcome(None, Failure(500, InternalError))
    case Some(b) =>
      if !Truthy(b.nome) || !Truthy(b.email) then PostOutcome(None, Failure(400, MissingFields))
      else
        var rec := CandidateRecord(b.nome, b.email, b.telefone, b.empresa, b.cargo, now);
        match store
        case StoreError => PostOutcome(Some(rec), Failure(500, CreateFailed))
        case Rows(rows) => PostOutcome(Some(rec), Ok(CreatedBody(Created, First(rows))))
  }

  /** An empty name or e-mail string is refused before any insert. */
  lemma EmptyNameOrEmailRejected<R>(b: CandidateBody, now: string, store: StoreResult<R>)
    requires b.nome == Str("") || b.email == Str("")
    ensures Post(Some(b), now, store) == PostOutcome(None, Failure(400, MissingFields))
  {
  }

  const DefaultPage: int := 1
  const DefaultLimit: int := 10

  /** `parseInt(searchParams.get(name) || default)`: `None` stands for an
      absent or empty parameter, `Some(n)` for one that parses to `n`. */
  function ParamOr(param: Option<int>, default: int): (r: int)
    ensures param.None? ==> r == default
    ensures param.Some? ==> r == param.value
  {
    if param.Some? then param.value else default
  }

  /** `.range(from, to)`: both ends inclusive. */
  datatype Range = Range(from: int, to: int)

  /** `(page - 1) * limit`. */
  function Offset(page: int, limit: int): int {
    (page - 1) * limit
  }

  /** `.range(offset, offset + limit - 1)`. */
  function RequestedRange(page: int, limit: int): (r: Range)
    requires page >= 1 && limit >= 1
    ensures r.from >= 0
    ensures r.to - r.from + 1 == limit
  {
    var offset := Offset(page, limit);
    Range(offset, offset + limit - 1)
  }

  /** Pages 1, 2, ... request the rows from 0 on in consecutive blocks of
      `limit`: page `p + 1` starts right after page `p` ends. */
  lemma ConsecutivePagesAdjacent(page: int, limit: int)
    requires page >= 1 && limit >= 1
    ensures RequestedRange(page + 1, limit).from == RequestedRange(page, limit).to + 1
  {
  }

  /** Every row index lies in the range of exactly one page. */
  lemma {:induction false} RowInExactlyOnePage(k: nat, page: int, limit: int)
    requires page >= 1 && limit >= 1
    ensures RequestedRange(page, limit).from <= k <= RequestedRange(page, limit).to <==> page == k / limit + 1
  {
    var r := RequestedRange(page, limit);
    assert r.from == (page - 1) * limit && r.to == r.from + limit - 1;
    BlockOfRow(page - 1, k, limit);
  }

  /** Row `k` lies in block `a` of `limit` rows exactly when `a` is the
      quotient of `k` by `limit`. */
  lemma {:induction false} BlockOfRow(a: int, k: nat, limit: int)
    requires limit >= 1
    ensures a * limit <= k < a * limit + limit <==> a == k / limit
  {
    var q := k / limit;
    assert k == q * limit + k % limit && 0 <= k % limit < limit;
    if a < q {
      MultiplyMonotone(a + 1, q, limit);
      assert (a + 1) * limit == a * limit + limit;
    } else if a > q {
      MultiplyMonotone(q + 1, a, limit);
      assert (q + 1) * limit == q * limit + limit;
    }
  }

  lemma MultiplyMonotone(a: int, b: int, c: nat)
    requires a <= b
    ensures a * c <= b * c
  {
  }

  /** `Math.ceil(total / limit)` for a non-negative total. */
  function TotalPages(total: nat, limit: int): nat
    requires limit >= 1
  {
    if total % limit == 0 then total / limit else total / limit + 1
  }

  /** The page count is the ceiling: the last page holds at least one and
      at most `limit` of the rows, and there are no pages without rows. */
  lemma {:induction false} TotalPagesIsCeiling(total: nat, limit: int)
    requires limit >= 1
    ensures total == 0 <==> TotalPages(total, limit) == 0
    ensures total > 0 ==> (TotalPages(total, limit) - 1) * limit < total <= TotalPages(total, limit) * limit
  {
    var q := total / limit;
    assert total == q * limit + total % limit;
    if total % limit != 0 {
      assert (q + 1) * limit == q * limit + limit;
    }
  }

  /** The pagination block of the `GET` reply. */
  datatype Pagination = Pagination(page: int, limit: int, total: nat, totalPages: nat)

  datatype ListBody<R> = ListBody(candidates: seq<R>, pagination: Pagination)

  /** `{ data, error, count }` of the counted select: an error, or the rows
      with the exact count (`null` as `None`). */
  datatype CountedRows<R> = CountError | Counted(rows: seq<R>, count: Option<nat>)

  datatype GetOutcome<R> = GetOutcome(range: Range, reply: Reply<ListBody<R>>)

  /** `GET`, from the two query parameters and the select's result. */
  function Get<R>(pageParam: Option<int>, limitParam: Option<int>, store: CountedRows<R>): (out: GetOutcome<R>)
    requires pageParam.Some? ==> pageParam.value >= 1
    requires limitParam.Some? ==> limitParam.value >= 1
    ensures var page := ParamOr(pageParam, DefaultPage);
            var limit := ParamOr(limitParam, DefaultLimit);
            out.range == RequestedRange(page, limit)
            && (out.reply.Failure? <==> store.CountError?)
            && (store.CountError? ==> out.reply == Failure(500, ListFailed))
            && (out.reply.Ok? ==>
                  out.reply.body.candidates == store.rows
                  && out.reply.body.pagination.page == page
                  && out.reply.body.pagination.limit == limit
                  && out.reply.body.pagination.total == (if store.count.Some? then store.count.value else 0)
                  && out.reply.body.pagination.totalPages == TotalPages(out.reply.body.pagination.total, limit))
  {
    var page := ParamOr(pageParam, DefaultPage);
    var limit := ParamOr(limitParam, DefaultLimit);
    var range := RequestedRange(page, limit);
    match store
    case CountError => GetOutcome(range, Failure(500, ListFailed))
    case Counted(rows, count) =>
      var total := if count.Some? then count.value else 0;
      GetOutcome(range, Ok(ListBody(rows, Pagination(page, limit, total, TotalPages(total, limit)))))
  }

  /** With no parameters the first ten rows are requested, and a missing
      count is reported as no rows and no pages. */
  lemma DefaultsRequestFirstTen<R>(rows: seq<R>)
    ensures var out := Get(None, None, Counted(rows, None));
            out.range == Range(0, 9)
            && out.reply == Ok(ListBody(rows, Pagination(1, 10, 0, 0)))
  {
  }
}
