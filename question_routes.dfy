/**
  `routes/question.rs`: the question handlers of the database-backed
  service. Listing and fetching are open to all; adding needs a session;
  updating and deleting also need the session's account to own the
  question. Titles and contents pass through the profanity service first.
 */
module RoutesQuestion {
  import opened Wrappers
  import opened RustStd
  import opened Warp
  import opened Listing
  import opened HandleErrors
  import opened TypesPagination
  import opened TypesQuestion
  import opened TypesAccount
  import Store

  /**
    The profanity service: `check` is what it answers for a text (the
    cleaned text, or the error of the call), and `requests` is every text
    sent to it so far.
   */
  class ProfanityFilter {
    const check: string -> Result<string, Error>
    var requests: seq<string>

    constructor (check: string -> Result<string, Error>)
      ensures this.check == check && requests == []
    {
      this.check := check;
      requests := [];
    }

    /** `check_profanity` */
    method CheckProfanity(text: string) returns (r: Result<string, Error>)
      modifies this
      ensures r == check(text)
      ensures requests == old(requests) + [text]
    {
      requests := requests + [text];
      r := check(text);
    }
  }

  /**
    The limit and offset `get_questions` hands the store. An empty query
    lists from the start without a limit; otherwise a limit is passed
    exactly when `limit` reads as a number, and the offset is non-negative
    exactly when `offset` is missing, unreadable or below 2^31, and is then
    the one `Pagination::new` read. Both are what `Pagination::new` read,
    passed through the wrapping `as i32`.
   */
  function Window(params: Params): (w: (Option<int32>, int32))
    ensures params == map[] ==> w == (None, 0)
    ensures params != map[] ==> (w.0.Some? <==> ReadsAsU32(params, "limit"))
    ensures params != map[] ==> (w.1 >= 0 <==> !ReadsAsU32(params, "offset") || DecimalValue(UnsignedDigits(params["offset"])) < TWO_TO_THE_31)
    ensures params != map[] && w.1 >= 0 ==> w.1 == New(params).offset
    ensures params != map[] ==>
      w.0 == (if New(params).limit.Some? then Some(AsI32(New(params).limit.value)) else None) &&
      w.1 == AsI32(New(params).offset)
  {
    if params == map[] then (None, 0)
    else (GetLimit(GetPagination(params)), GetOffset(GetPagination(params)))
  }

  /**
    A `limit` from 2^31 to 2^32-1 reads as a `u32`, wraps to a negative
    LIMIT, and the store answers 2201W, on which `return_error` panics.
   */
  lemma LargeLimitPanics(params: Params, v: nat, store: Store.Store)
    requires store.Valid()
    requires TWO_TO_THE_31 <= v <= UINT32_MAX && "offset" !in params
    ensures var w := Window(params["limit" := NatToString(v)]);
      store.SelectQuestions(w.0, w.1, None) == Err(DatabaseQueryError(Database(Some(Store.NEGATIVE_LIMIT)))) &&
      !NoPanic(RejectCustom(store.SelectQuestions(w.0, w.1, None).error))
  {
    LargeLimitTurnsNegative(params, v);
    assert "offset" !in params["limit" := NatToString(v)];
    Store.NegativeWindowCodesAreUnreadable();
  }

  /** With the corrected recovery step the same request answers 500 "Database Query Error". */
  lemma LargeLimitAnswers500(params: Params, v: nat, store: Store.Store)
    requires store.Valid()
    requires TWO_TO_THE_31 <= v <= UINT32_MAX && "offset" !in params
    ensures var w := Window(params["limit" := NatToString(v)]);
      store.SelectQuestions(w.0, w.1, None).Err? &&
      ReturnErrorCorrected(RejectCustom(store.SelectQuestions(w.0, w.1, None).error)) ==
        Ok(Response(INTERNAL_SERVER_ERROR, "Database Query Error"))
  {
    LargeLimitPanics(params, v, store);
    var w := Window(params["limit" := NatToString(v)]);
    assert FindIndex(RejectCustom(store.SelectQuestions(w.0, w.1, None).error).causes, ErrorType) == Some(0);
  }

  /** A handler's answer to a store result: the JSON of the value, or the error as a custom rejection */
  function JsonOrReject<T>(res: Result<T, Error>): (r: Result<Reply<T>, Rejection<Error>>)
    ensures res.Ok? <==> r.Ok?
    ensures r.Ok? ==> r.value == Json(res.value)
    ensures r.Err? ==> r.error == RejectCustom(res.error)
  {
    match res
    case Ok(v) => Ok(Json(v))
    case Err(e) => Err(RejectCustom(e))
  }

  /** `get_questions`: the page of questions the store lists, as JSON; a store error is the rejection. */
  method GetQuestions(params: Params, store: Store.Store, fault: Option<SqlxError>) returns (r: Result<Reply<seq<Question>>, Rejection<Error>>)
    requires store.Valid()
    ensures r == JsonOrReject(store.SelectQuestions(Window(params).0, Window(params).1, fault))
    ensures params == map[] && fault.None? ==> r == Ok(Json(store.Listed()))
    ensures fault.Some? ==> r == Err(RejectCustom(DatabaseQueryError(fault.value)))
  {
    var limit: Option<int32> := None;
    var offset: int32 := 0;
    if params != map[] {
      var pagination := GetPagination(params);
      limit := GetLimit(pagination);
      offset := GetOffset(pagination);
    }
    var res := store.SelectQuestions(limit, offset, fault);
    if res.Err? {
      return Err(RejectCustom(res.error));
    }
    PageWhole(store.Listed());
    r := Ok(Json(res.value));
  }

  /** `get_question`: the JSON of the row's question, or of `null` when there is no such row; a store error is the rejection. */
  function GetQuestion(id: int32, store: Store.Store, fault: Option<SqlxError>): (r: Result<Reply<Option<Question>>, Rejection<Error>>)
    reads store
    ensures fault.Some? ==> r == Err(RejectCustom(DatabaseQueryError(fault.value)))
    ensures fault.None? && id in store.questions ==> r == Ok(Json(Some(store.questions[id].question)))
    ensures fault.None? && id !in store.questions ==> r == Ok(Json(None))
  {
    JsonOrReject(store.SelectQuestion(id, fault))
  }

  /**
    `add_question`: both texts go to the profanity service; the first
    failure, title before content, is the rejection and nothing is stored;
    otherwise the cleaned texts and the tags are stored under the session's
    account and the reply is 201 "Question added".
   */
  method AddQuestion(session: Session, store: Store.Store, filter: ProfanityFilter, nq: NewQuestion, fault: Option<SqlxError>)
    returns (r: Result<Reply<()>, Rejection<Error>>)
    requires store.Valid()
    modifies store, filter
    ensures store.Valid()
    ensures filter.requests == old(filter.requests) + [nq.title, nq.content]
    ensures filter.check(nq.title).Err? ==> r == Err(RejectCustom(filter.check(nq.title).error))
    ensures filter.check(nq.title).Ok? && filter.check(nq.content).Err? ==> r == Err(RejectCustom(filter.check(nq.content).error))
    ensures filter.check(nq.title).Ok? && filter.check(nq.content).Ok? && fault.Some? ==>
      r == Err(RejectCustom(DatabaseQueryError(fault.value)))
    ensures filter.check(nq.title).Ok? && filter.check(nq.content).Ok? && fault.None? && old(store.nextQuestionId) == TWO_TO_THE_31 ==>
      r == Err(RejectCustom(DatabaseQueryError(Database(Some(Store.SEQUENCE_EXHAUSTED)))))
    ensures filter.check(nq.title).Ok? && filter.check(nq.content).Ok? && fault.None? && old(store.nextQuestionId) < TWO_TO_THE_31 ==>
      r.Ok?
    ensures r.Err? ==> unchanged(store)
    ensures r.Ok? ==>
      var id := old(store.nextQuestionId);
      r.value == WithStatus(CREATED, "Question added") &&
      filter.check(nq.title).Ok? && filter.check(nq.content).Ok? && id < TWO_TO_THE_31 &&
      store.questions == old(store.questions)[id := Store.QuestionRow(
        Question(QuestionId(id), filter.check(nq.title).value, filter.check(nq.content).value, nq.tags), session.accountId)] &&
      store.order == old(store.order) + [id] && store.nextQuestionId == id + 1 &&
      store.accounts == old(store.accounts) && store.nextAccountId == old(store.nextAccountId)
  {
    var title := filter.CheckProfanity(nq.title);
    var content := filter.CheckProfanity(nq.content);
    if title.Err? {
      return Err(RejectCustom(title.error));
    }
    if content.Err? {
      return Err(RejectCustom(content.error));
    }
    var added := store.AddQuestion(NewQuestion(title.value, content.value, nq.tags), session.accountId, fault);
    if added.Err? {
      return Err(RejectCustom(added.error));
    }
    r := Ok(WithStatus(CREATED, "Question added"));
  }

  /**
    `update_question`. The ownership query comes first: its error is the
    rejection, and an id the session's account does not own, whether absent
    or someone else's, is `Unauthorized` with no profanity call and no
    write. For the owner, the title and then the content are checked, each
    failure ending the request before the write, and the write keeps the id
    and the owner and takes the cleaned texts and the tags.
   */
  method UpdateQuestion(id: int32, session: Session, store: Store.Store, filter: ProfanityFilter, q: Question,
                        ownerFault: Option<SqlxError>, writeFault: Option<SqlxError>)
    returns (r: Result<Reply<()>, Rejection<Error>>)
    requires store.Valid()
    modifies store, filter
    ensures store.Valid()
    ensures ownerFault.Some? ==>
      r == Err(RejectCustom(DatabaseQueryError(ownerFault.value))) && filter.requests == old(filter.requests)
    ensures ownerFault.None? && !old(store.Owns(id, session.accountId)) ==>
      r == Err(RejectCustom(Unauthorized)) && filter.requests == old(filter.requests)
    ensures ownerFault.None? && old(store.Owns(id, session.accountId)) ==>
      filter.requests == old(filter.requests) + [q.title] + (if filter.check(q.title).Ok? then [q.content] else [])
    ensures ownerFault.None? && old(store.Owns(id, session.accountId)) && filter.check(q.title).Err? ==>
      r == Err(RejectCustom(filter.check(q.title).error))
    ensures ownerFault.None? && old(store.Owns(id, session.accountId)) && filter.check(q.title).Ok? && filter.check(q.content).Err? ==>
      r == Err(RejectCustom(filter.check(q.content).error))
    ensures ownerFault.None? && old(store.Owns(id, session.accountId)) && filter.check(q.title).Ok? && filter.check(q.content).Ok? ==>
      r == (if writeFault.Some? then Err(RejectCustom(DatabaseQueryError(writeFault.value))) else Ok(WithStatus(OK, "Question updated")))
    ensures r.Err? ==> unchanged(store)
    ensures r.Ok? ==>
      old(store.Owns(id, session.accountId)) && filter.check(q.title).Ok? && filter.check(q.content).Ok? &&
      store.questions == old(store.questions)[id := Store.QuestionRow(
        Question(QuestionId(id), filter.check(q.title).value, filter.check(q.content).value, q.tags), session.accountId)] &&
      store.order == old(store.order) && store.nextQuestionId == old(store.nextQuestionId) &&
      store.accounts == old(store.accounts) && store.nextAccountId == old(store.nextAccountId)
  {
    var owner := store.IsQuestionOwner(id, session.accountId, ownerFault);
    if owner.Err? {
      return Err(RejectCustom(owner.error));
    }
    if !owner.value {
      return Err(RejectCustom(Unauthorized));
    }
    var title := filter.CheckProfanity(q.title);
    if title.Err? {
      return Err(RejectCustom(title.error));
    }
    var content := filter.CheckProfanity(q.content);
    if content.Err? {
      return Err(RejectCustom(content.error));
    }
    var updated := store.UpdateQuestion(id, Question(q.id, title.value, content.value, q.tags), session.accountId, writeFault);
    if updated.Err? {
      return Err(RejectCustom(updated.error));
    }
    r := Ok(WithStatus(OK, "Question updated"));
  }

  /**
    `update_question` over the store's query as written: the write always
    fails, so no update ever succeeds and the store never changes; the
    owner whose texts pass the profanity check gets 500 "Database Query
    Error" instead of 200 "Question updated".
   */
  method UpdateQuestionAsWritten(id: int32, session: Session, store: Store.Store, filter: ProfanityFilter, q: Question,
                                 ownerFault: Option<SqlxError>, writeFault: Option<SqlxError>)
    returns (r: Result<Reply<()>, Rejection<Error>>)
    requires store.Valid()
    modifies store, filter
    ensures store.Valid()
    ensures r.Err? && unchanged(store)
    ensures (ownerFault.None? && old(store.Owns(id, session.accountId)) &&
             filter.check(q.title).Ok? && filter.check(q.content).Ok? && writeFault.None?) ==>
      r == Err(RejectCustom(DatabaseQueryError(Database(Some(Store.UNDEFINED_FUNCTION))))) &&
      NoPanic(r.error) && ReturnError(r.error) == Ok(Response(INTERNAL_SERVER_ERROR, "Database Query Error"))
  {
    var written := Store.UpdateQuestionAsWritten(id, q, session.accountId, writeFault);
    r := UpdateQuestion(id, session, store, filter, q, ownerFault, Some(written.error.cause));
    Store.UpdateAsWrittenIs500(id, q, session.accountId);
  }

  /**
    `delete_question`: for the owner the row goes and the reply is 200
    "Question deleted"; for anyone else, and for an absent id, it is
    `Unauthorized` and nothing goes.
   */
  method DeleteQuestion(id: int32, session: Session, store: Store.Store, ownerFault: Option<SqlxError>, writeFault: Option<SqlxError>)
    returns (r: Result<Reply<()>, Rejection<Error>>)
    requires store.Valid()
    modifies store
    ensures store.Valid()
    ensures ownerFault.Some? ==> r == Err(RejectCustom(DatabaseQueryError(ownerFault.value)))
    ensures ownerFault.None? && !old(store.Owns(id, session.accountId)) ==> r == Err(RejectCustom(Unauthorized))
    ensures ownerFault.None? && old(store.Owns(id, session.accountId)) ==>
      r == (if writeFault.Some? then Err(RejectCustom(DatabaseQueryError(writeFault.value))) else Ok(WithStatus(OK, "Question deleted")))
    ensures r.Err? ==> unchanged(store)
    ensures r.Ok? ==>
      store.questions == old(store.questions) - {id} && store.order == RemoveKey(old(store.order), id) &&
      store.nextQuestionId == old(store.nextQuestionId) &&
      store.accounts == old(store.accounts) && store.nextAccountId == old(store.nextAccountId)
  {
    var owner := store.IsQuestionOwner(id, session.accountId, ownerFault);
    if owner.Err? {
      return Err(RejectCustom(owner.error));
    }
    if !owner.value {
      return Err(RejectCustom(Unauthorized));
    }
    var deleted := store.DeleteQuestion(id, session.accountId, writeFault);
    if deleted.Err? {
      return Err(RejectCustom(deleted.error));
    }
    r := Ok(WithStatus(OK, "Question deleted"));
  }
}
