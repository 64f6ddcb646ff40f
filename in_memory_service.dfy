/**
  `src/main.rs`: the earlier, in-memory version of the service. Questions
  live in a `HashMap` keyed by a text id; the listing takes a `start`/`end`
  window that must be given whole and in order; and the recovery step is a
  smaller copy of the one in `handle-errors`.
 */
module InMemoryService {
  import opened Wrappers
  import opened RustStd
  import opened Warp
  import opened Listing
  import HandleErrors
  import TypesQuestion

  /** The query string */
  type Params = map<string, string>

  // ---------------------------------------------------------------------------
  // Ids and questions
  // ---------------------------------------------------------------------------

  datatype QuestionId = QuestionId(value: string)

  /** `Display` for `QuestionId`: the text itself, so a non-empty id reads back from its text and the empty one does not */
  function IdText(id: QuestionId): (s: string)
    ensures FromStr(s).Ok? <==> id.value != []
    ensures id.value != [] ==> FromStr(s) == Ok(id)
  {
    id.value
  }

  /** `QuestionId::from_str`: the empty string is an `InvalidInput` error, anything else is the id as it is. */
  function FromStr(s: string): (r: Result<QuestionId, IoError>)
    ensures r.Ok? <==> s != []
    ensures r.Ok? ==> r.value.value == s
    ensures r.Err? ==> r.error == IoError(InvalidInput, TypesQuestion.NO_ID_PROVIDED)
  {
    if s == [] then Err(IoError(InvalidInput, TypesQuestion.NO_ID_PROVIDED))
    else Ok(QuestionId(s))
  }

  datatype Question = Question(id: QuestionId, title: string, content: string, tags: Option<seq<string>>)

  // ---------------------------------------------------------------------------
  // Errors and their responses
  // ---------------------------------------------------------------------------

  datatype Error =
    | ParseError(kind: IntErrorKind)
    | MissingParameters
    | InvalidRange
    | QuestionNotFound

  /** Each error as the `handle-errors` variant of the same name */
  function Lift(e: Error): HandleErrors.Error
  {
    match e
    case ParseError(k) => HandleErrors.ParseError(k)
    case MissingParameters => HandleErrors.MissingParameters
    case InvalidRange => HandleErrors.InvalidRange
    case QuestionNotFound => HandleErrors.QuestionNotFound
  }

  /** The `Error` branches of the smaller `return_error`: 416 for a backwards range and for nothing else */
  function ErrorResponse(e: Error): (res: Response)
    ensures res.status in {NOT_FOUND, EXPECTATION_FAILED, RANGE_NOT_SATISFIABLE}
    ensures res.status == RANGE_NOT_SATISFIABLE <==> e == InvalidRange
  {
    match e
    case MissingParameters => Response(EXPECTATION_FAILED, "Missing Parameters")
    case InvalidRange => Response(RANGE_NOT_SATISFIABLE, "Invalid range")
    case ParseError(k) => Response(EXPECTATION_FAILED, "Parse error: " + IntErrorText(k))
    case QuestionNotFound => Response(NOT_FOUND, "Question not found")
  }

  /** Each error gets the response its namesake gets from `handle-errors` */
  lemma LiftAgrees(e: Error)
    ensures HandleErrors.CodeReadable(Lift(e))
    ensures HandleErrors.ErrorResponse(Lift(e)) == ErrorResponse(e)
  {
  }

  /**
    `return_error` of `main.rs`: the same order of tests as the larger one,
    over fewer errors, so it never answers 401 or 500, and 416 only for a
    backwards range.
   */
  function ReturnError(r: Rejection<Error>): (res: Response)
    ensures res.status in {FORBIDDEN, NOT_FOUND, UNPROCESSABLE_ENTITY, EXPECTATION_FAILED, RANGE_NOT_SATISFIABLE}
    ensures res.status == RANGE_NOT_SATISFIABLE <==>
      Find(r, CorsType).None? && Find(r, BodyType).None? && Find(r, InvalidIdType).None? && FindError(r) == Some(InvalidRange)
  {
    if Find(r, CorsType).Some? then
      Response(FORBIDDEN, Find(r, CorsType).value.text)
    else if Find(r, BodyType).Some? then
      Response(NOT_FOUND, Find(r, BodyType).value.text)
    else if Find(r, InvalidIdType).Some? then
      Response(UNPROCESSABLE_ENTITY, "No valid ID presented")
    else
      match FindError(r)
      case None => Response(NOT_FOUND, "Route not found")
      case Some(e) => ErrorResponse(e)
  }

  /**
    The smaller recovery step is the larger one restricted to the errors it
    knows: every rejection gets the response `handle-errors` gives it once
    its errors are read as their namesakes.
   */
  lemma ReturnErrorAgreesWithHandleErrors(r: Rejection<Error>)
    ensures HandleErrors.NoPanic(MapCauses(r, Lift))
    ensures HandleErrors.ReturnError(MapCauses(r, Lift)) == Ok(ReturnError(r))
  {
    var m := MapCauses(r, Lift);
    MapCausesFind(r, Lift, CorsType);
    MapCausesFind(r, Lift, BodyType);
    MapCausesFind(r, Lift, InvalidIdType);
    if FindError(r).Some? {
      LiftAgrees(FindError(r).value);
    }
    match FindIndex(r.causes, CorsType)
    case Some(i) => assert m.causes[i].text == r.causes[i].text;
    case None =>
    match FindIndex(r.causes, BodyType)
    case Some(i) => assert m.causes[i].text == r.causes[i].text;
    case None =>
  }

  // ---------------------------------------------------------------------------
  // The start/end window
  // ---------------------------------------------------------------------------

  datatype Pagination = Pagination(start: uint64, end: uint64)

  /** `params[key]` reads as a `usize` */
  predicate ReadsAsUsize(params: Params, key: string)
    requires key in params
  {
    IsUnsignedLiteral(params[key], UINT64_MAX)
  }

  /** `Pagination::get_value`: the value under `key`, which must be there, as a `usize`, else `ParseError` */
  function GetValue(key: string, params: Params): (r: Result<uint64, Error>)
    requires key in params
    ensures r.Ok? <==> ReadsAsUsize(params, key)
    ensures r.Ok? ==> r.value == DecimalValue(UnsignedDigits(params[key]))
    ensures r.Err? ==> r.error == ParseError(ParseUsize(params[key]).error)
  {
    match ParseUsize(params[key])
    case Ok(v) => Ok(v)
    case Err(k) => Err(ParseError(k))
  }

  /**
    `Pagination::new`: `start`, then `end`, each must read as a number, and
    `end` must not come before `start`. The lookups `unwrap`, so `start` must
    be there, and `end` too once `start` has read.
   */
  function NewPagination(params: Params): (r: Result<Pagination, Error>)
    requires "start" in params && (ReadsAsUsize(params, "start") ==> "end" in params)
    ensures !ReadsAsUsize(params, "start") ==> r == Err(ParseError(ParseUsize(params["start"]).error))
    ensures ReadsAsUsize(params, "start") && !ReadsAsUsize(params, "end") ==> r == Err(ParseError(ParseUsize(params["end"]).error))
    ensures r.Ok? <==> (ReadsAsUsize(params, "start") && ReadsAsUsize(params, "end") &&
      DecimalValue(UnsignedDigits(params["start"])) <= DecimalValue(UnsignedDigits(params["end"])))
    ensures r.Ok? ==> r.value == Pagination(DecimalValue(UnsignedDigits(params["start"])), DecimalValue(UnsignedDigits(params["end"])))
    ensures r.Err? && ReadsAsUsize(params, "start") && ReadsAsUsize(params, "end") ==> r == Err(InvalidRange)
  {
    match GetValue("start", params)
    case Err(e) => Err(e)
    case Ok(start) =>
      match GetValue("end", params)
      case Err(e) => Err(e)
      case Ok(end) =>
        if end >= start then Ok(Pagination(start, end)) else Err(InvalidRange)
  }

  /** `get_pagination`: both keys or `MissingParameters`; a window it returns never runs backwards. */
  function GetPagination(params: Params): (r: Result<Pagination, Error>)
    ensures !("start" in params && "end" in params) <==> r == Err(MissingParameters)
    ensures "start" in params && "end" in params ==> r == NewPagination(params)
    ensures r.Ok? ==> r.value.start <= r.value.end
  {
    if "start" in params && "end" in params then NewPagination(params)
    else Err(MissingParameters)
  }

  /** The window's errors reach the client as 417 for a missing key or a bad number and 416 for a backwards range. */
  lemma PaginationErrorStatus(params: Params)
    requires GetPagination(params).Err?
    ensures ReturnError(RejectCustom(GetPagination(params).error)).status ==
      if GetPagination(params).error == InvalidRange then RANGE_NOT_SATISFIABLE else EXPECTATION_FAILED
  {
    assert FindIndex(RejectCustom(GetPagination(params).error).causes, ErrorType) == Some(0);
  }

  // ---------------------------------------------------------------------------
  // The store
  // ---------------------------------------------------------------------------

  /** The in-memory store: the map and the order `values()` walks it in */
  class Store {
    var questions: map<QuestionId, Question>
    var order: seq<QuestionId>

    ghost predicate Valid()
      reads this
    {
      IsEnumeration(order, questions.Keys)
    }

    /** Every question sits under its own id. */
    predicate KeyedById()
      reads this
    {
      forall k :: k in questions ==> questions[k].id == k
    }

    /** A store holding `init`, walked in `order`; reading `questions.json` is not modelled. */
    constructor (init: map<QuestionId, Question>, order: seq<QuestionId>)
      requires IsEnumeration(order, init.Keys)
      ensures Valid() && questions == init && this.order == order
    {
      questions := init;
      this.order := order;
    }

    /** `questions.values()` */
    function Listed(): (qs: seq<Question>)
      reads this
      requires Valid()
      ensures |qs| == |order|
      ensures forall i :: 0 <= i < |order| ==> qs[i] == questions[order[i]]
    {
      Values(order, questions)
    }

    /**
      `get_questions`: without a query, the first 20 values; with one, the
      values from `start` up to, not including, `end`; a bad window is the
      rejection.
     */
    method GetQuestions(params: Params) returns (r: Result<Reply<seq<Question>>, Rejection<Error>>)
      requires Valid()
      ensures params == map[] ==> r == Ok(Json(Page(Listed(), 0, Some(20))))
      ensures params != map[] && GetPagination(params).Err? ==> r == Err(RejectCustom(GetPagination(params).error))
      ensures params != map[] && GetPagination(params).Ok? ==>
        var p := GetPagination(params).value;
        r == Ok(Json(Page(Listed(), p.start, Some(p.end - p.start))))
      ensures r.Ok? ==> r.value.Json? && |r.value.payload| <= (if params == map[] then 20 else GetPagination(params).value.end - GetPagination(params).value.start)
    {
      var startPos: nat := 0;
      var endPos: nat := 20;
      if params != map[] {
        var pagination := GetPagination(params);
        if pagination.Err? {
          return Err(RejectCustom(pagination.error));
        }
        startPos := pagination.value.start;
        endPos := pagination.value.end;
      }
      var res := Page(Values(order, questions), startPos, Some(endPos - startPos));
      r := Ok(Json(res));
    }

    /** `get_question`: the question under this id, or `QuestionNotFound` */
    function GetQuestion(id: string): (r: Result<Reply<Question>, Rejection<Error>>)
      reads this
      ensures r.Ok? <==> QuestionId(id) in questions
      ensures r.Ok? ==> r.value == Json(questions[QuestionId(id)])
      ensures r.Err? ==> r.error == RejectCustom(QuestionNotFound)
    {
      if QuestionId(id) in questions then Ok(Json(questions[QuestionId(id)]))
      else Err(RejectCustom(QuestionNotFound))
    }

    /** `add_question`: insert under the question's own id, replacing what was there; the other entries stay. */
    method AddQuestion(q: Question) returns (r: Reply<()>)
      requires Valid()
      modifies this
      ensures Valid()
      ensures r == WithStatus(CREATED, "Question added")
      ensures questions == old(questions)[q.id := q]
      ensures forall k :: k in old(questions) && k != q.id ==> k in questions && questions[k] == old(questions)[k]
      ensures q.id in old(questions) ==> order == old(order)
      ensures q.id !in old(questions) ==> order == old(order) + [q.id]
      ensures old(KeyedById()) ==> KeyedById()
    {
      if q.id !in questions {
        AppendEnumerates(order, questions.Keys, q.id);
        order := order + [q.id];
      }
      questions := questions[q.id := q];
      r := WithStatus(CREATED, "Question added");
    }

    /**
      `update_question`: the body's id is replaced by the path's; an id that
      is there takes the body, one that is not is `QuestionNotFound` and
      nothing changes.
     */
    method UpdateQuestion(id: string, q: Question) returns (r: Result<Reply<()>, Rejection<Error>>)
      requires Valid()
      modifies this
      ensures Valid()
      ensures r.Ok? <==> QuestionId(id) in old(questions)
      ensures r.Ok? ==> r.value == WithStatus(OK, "Question updated")
      ensures r.Ok? ==> questions == old(questions)[QuestionId(id) := Question(QuestionId(id), q.title, q.content, q.tags)]
      ensures r.Err? ==> r.error == RejectCustom(QuestionNotFound) && questions == old(questions)
      ensures order == old(order)
      ensures old(KeyedById()) ==> KeyedById()
    {
      var updated := Question(QuestionId(id), q.title, q.content, q.tags);
      if updated.id in questions {
        questions := questions[updated.id := updated];
        r := Ok(WithStatus(OK, "Question updated"));
      } else {
        r := Err(RejectCustom(QuestionNotFound));
      }
    }

    /** `delete_question`: an id that is there goes, the rest keep their order; one that is not is `QuestionNotFound`. */
    method DeleteQuestion(id: string) returns (r: Result<Reply<()>, Rejection<Error>>)
      requires Valid()
      modifies this
      ensures Valid()
      ensures r.Ok? <==> QuestionId(id) in old(questions)
      ensures r.Ok? ==> r.value == WithStatus(OK, "Question deleted")
      ensures r.Ok? ==> questions == old(questions) - {QuestionId(id)} && order == RemoveKey(old(order), QuestionId(id))
      ensures r.Err? ==> r.error == RejectCustom(QuestionNotFound) && questions == old(questions) && order == old(order)
      ensures old(KeyedById()) ==> KeyedById()
    {
      var key := QuestionId(id);
      if key in questions {
        RemoveKeyEnumerates(order, questions.Keys, key);
        questions := questions - {key};
        order := RemoveKey(order, key);
        r := Ok(WithStatus(OK, "Question deleted"));
      } else {
        r := Err(RejectCustom(QuestionNotFound));
      }
    }
  }
}
