/**
  The `handle-errors` crate: the service's closed error type, its `Display`
  text, and `return_error`, the recovery step that turns every rejection
  into a status and a body.
 */
module HandleErrors {
  import opened Wrappers
  import opened RustStd
  import opened Warp

  /** What the recovery step can tell about an `sqlx::Error` */
  datatype SqlxError =
    | Database(code: Option<string>)  // `sqlx::Error::Database`: the driver's error and its SQLSTATE code, if it has one
    | RowNotFound                     // `fetch_one` found no row
    | OtherSqlxError(text: string)    // any other sqlx failure (pool timeout, I/O, decoding, ...)

  /** `APILayerError`: the status and message of a failed call to the profanity service */
  datatype ApiLayerError = ApiLayerError(status: uint16, message: string)

  datatype Error =
    | ParseError(kind: IntErrorKind)
    | MissingParameters
    | InvalidRange
    | QuestionNotFound
    | WrongPassword
    | Unauthorized
    | TokenError
    | DatabaseQueryError(cause: SqlxError)
    | ExternalApiError(detail: string)   // a `reqwest::Error`, by its Display text
    | ClientError(api: ApiLayerError)
    | ServerError(api: ApiLayerError)
    | ArgonLibraryError(detail: string)  // an `argon2::Error`, by its Display text

  /** `Display` of an `Error`, the text logged server-side; it opens with four characters that belong to its variant alone. */
  function ErrorText(e: Error): (s: string)
    ensures |s| >= 4 && s[..4] == TextPrefix(e)
  {
    match e
    case ParseError(k) => PrefixKept("Can't parse parameter: ", IntErrorText(k)); "Can't parse parameter: " + IntErrorText(k)
    case MissingParameters => "Missing parameter"
    case InvalidRange => "Invalid range"
    case QuestionNotFound => "Question not found"
    case WrongPassword => "Wrong Password"
    case Unauthorized => "Unauthorized"
    case TokenError => "Token Error"
    case DatabaseQueryError(_) => "Query could not be executed"
    case ExternalApiError(d) => PrefixKept("External api error: ", d); "External api error: " + d
    case ClientError(a) =>
      PrefixKept("Client error: ", a.message + ", status: " + NatToString(a.status));
      "Client error: " + (a.message + ", status: " + NatToString(a.status))
    case ServerError(a) =>
      PrefixKept("Server error: ", a.message + ", status: " + NatToString(a.status));
      "Server error: " + (a.message + ", status: " + NatToString(a.status))
    case ArgonLibraryError(d) => PrefixKept("Auth error: ", d); "Auth error: " + d
  }

  /** Appending to a text of four characters or more keeps its first four. */
  lemma PrefixKept(a: string, b: string)
    requires |a| >= 4
    ensures |a + b| >= 4 && (a + b)[..4] == a[..4]
  {
    assert (a + b)[..4] == a[..4] by {
      forall i | 0 <= i < 4 ensures (a + b)[i] == a[i] { }
    }
  }

  /** The first four characters of each variant's text, all different */
  function TextPrefix(e: Error): string
  {
    match e
    case ParseError(_) => "Can'"
    case MissingParameters => "Miss"
    case InvalidRange => "Inva"
    case QuestionNotFound => "Ques"
    case WrongPassword => "Wron"
    case Unauthorized => "Unau"
    case TokenError => "Toke"
    case DatabaseQueryError(_) => "Quer"
    case ExternalApiError(_) => "Exte"
    case ClientError(_) => "Clie"
    case ServerError(_) => "Serv"
    case ArgonLibraryError(_) => "Auth"
  }

  /** The variant a four-character prefix belongs to, numbered in declaration order */
  function PrefixVariant(p: string): int
  {
    if p == "Can'" then 0 else if p == "Miss" then 1 else if p == "Inva" then 2
    else if p == "Ques" then 3 else if p == "Wron" then 4 else if p == "Unau" then 5
    else if p == "Toke" then 6 else if p == "Quer" then 7 else if p == "Exte" then 8
    else if p == "Clie" then 9 else if p == "Serv" then 10 else if p == "Auth" then 11
    else -1
  }

  /** The variant of an error, numbered in declaration order */
  function Variant(e: Error): (n: int)
    ensures 0 <= n < 12
  {
    match e
    case ParseError(_) => 0
    case MissingParameters => 1
    case InvalidRange => 2
    case QuestionNotFound => 3
    case WrongPassword => 4
    case Unauthorized => 5
    case TokenError => 6
    case DatabaseQueryError(_) => 7
    case ExternalApiError(_) => 8
    case ClientError(_) => 9
    case ServerError(_) => 10
    case ArgonLibraryError(_) => 11
  }

  /** The prefix of an error's text names its variant. */
  lemma PrefixNamesVariant(e: Error)
    ensures PrefixVariant(TextPrefix(e)) == Variant(e)
  {
  }

  /** Two errors of different variants never display alike; the fieldless ones display alike only as themselves. */
  lemma ErrorTextTellsVariantsApart(e1: Error, e2: Error)
    requires ErrorText(e1) == ErrorText(e2)
    ensures Variant(e1) == Variant(e2)
    ensures e1 == MissingParameters || e1 == InvalidRange || e1 == QuestionNotFound ==> e1 == e2
    ensures e1 == WrongPassword || e1 == Unauthorized || e1 == TokenError ==> e1 == e2
  {
    PrefixNamesVariant(e1);
    PrefixNamesVariant(e2);
  }

  const DUPLICATE_KEY: int := 23505

  /** A driver error whose SQLSTATE code reads as the number 23505, a unique-constraint violation */
  predicate IsDuplicateKey(e: Error)
  {
    e.DatabaseQueryError? && e.cause.Database? && e.cause.code.Some? &&
    ParseU32(e.cause.code.value) == Ok(DUPLICATE_KEY)
  }

  /** An error the server caused, whose detail stays in the logs */
  predicate IsServerFault(e: Error)
  {
    e.DatabaseQueryError? || e.ExternalApiError? || e.ClientError? || e.ServerError? || e.ArgonLibraryError?
  }

  /** The duplicate-key test can be evaluated: the code is there and is a `u32` */
  predicate CodeReadable(e: Error)
  {
    e.DatabaseQueryError? && e.cause.Database? ==>
      e.cause.code.Some? && ParseU32(e.cause.code.value).Ok?
  }

  /** Nothing before the `DatabaseQueryError` branch matches */
  predicate NoFrameworkCause(r: Rejection<Error>)
  {
    Find(r, CorsType).None? && Find(r, BodyType).None? && Find(r, InvalidIdType).None?
  }

  /** `return_error` does not panic on `r`: if it reaches the duplicate-key test, the code unwraps and parses. */
  predicate NoPanic(r: Rejection<Error>)
  {
    NoFrameworkCause(r) && FindError(r).Some? ==> CodeReadable(FindError(r).value)
  }

  /**
    The `Error` branches of `return_error`. Each tests `r.find::<Error>()`,
    the first custom error of the rejection, against one variant; the
    variants exclude each other, so the chain is this match.
   */
  function ErrorResponse(e: Error): (r: Response)
    requires CodeReadable(e)
    ensures r.status in {UNAUTHORIZED, UNPROCESSABLE_ENTITY, INTERNAL_SERVER_ERROR, NOT_FOUND, EXPECTATION_FAILED, RANGE_NOT_SATISFIABLE}
    ensures r.status == UNPROCESSABLE_ENTITY <==> IsDuplicateKey(e)
    ensures r.status == INTERNAL_SERVER_ERROR <==> IsServerFault(e) && !IsDuplicateKey(e)
    ensures r.status == INTERNAL_SERVER_ERROR ==> r.body in {"Database Query Error", "External api error", "Internal server error"}
    ensures e.ParseError? ==> r.body == "Parse error: " + IntErrorText(e.kind)
  {
    match e
    case MissingParameters => Response(EXPECTATION_FAILED, "Missing Parameters")
    case InvalidRange => Response(RANGE_NOT_SATISFIABLE, "Invalid range")
    case ParseError(k) => Response(EXPECTATION_FAILED, "Parse error: " + IntErrorText(k))
    case QuestionNotFound => Response(NOT_FOUND, "Question not found")
    case WrongPassword => Response(UNAUTHORIZED, "Wrong E-Mail/Password combination")
    case Unauthorized => Response(UNAUTHORIZED, "Unauthorized")
    case TokenError => Response(UNAUTHORIZED, "Token Error")
    case DatabaseQueryError(cause) =>
      if cause.Database? && ParseU32(cause.code.value).value == DUPLICATE_KEY then
        Response(UNPROCESSABLE_ENTITY, "Account already exists")
      else
        Response(INTERNAL_SERVER_ERROR, "Database Query Error")
    case ExternalApiError(_) => Response(INTERNAL_SERVER_ERROR, "External api error")
    case ClientError(_) => Response(INTERNAL_SERVER_ERROR, "Internal server error")
    case ServerError(_) => Response(INTERNAL_SERVER_ERROR, "Internal server error")
    case ArgonLibraryError(_) => Response(INTERNAL_SERVER_ERROR, "Internal server error")
  }

  /** `return_error`: the recovery step; every branch replies, none rejects again. */
  function ReturnError(r: Rejection<Error>): (res: Result<Response, Rejection<Error>>)
    requires NoPanic(r)
    ensures res.Ok?
  {
    if Find(r, CorsType).Some? then
      Ok(Response(FORBIDDEN, Find(r, CorsType).value.text))
    else if Find(r, BodyType).Some? then
      Ok(Response(NOT_FOUND, Find(r, BodyType).value.text))
    else if Find(r, InvalidIdType).Some? then
      Ok(Response(UNPROCESSABLE_ENTITY, "No valid ID presented"))
    else
      match FindError(r)
      case Some(e) => Ok(ErrorResponse(e))
      case None => Ok(Response(NOT_FOUND, "Route not found"))
  }

  /**
    `return_error` as evidently intended: a database error whose code is
    missing or not a number is answered like any other database error,
    instead of panicking at the `unwrap` of its code.
   */
  function ReturnErrorCorrected(r: Rejection<Error>): (res: Result<Response, Rejection<Error>>)
    ensures res.Ok?
    ensures NoPanic(r) ==> res == ReturnError(r)
    ensures NoFrameworkCause(r) && FindError(r).Some? && FindError(r).value.DatabaseQueryError? && !IsDuplicateKey(FindError(r).value) ==>
      res == Ok(Response(INTERNAL_SERVER_ERROR, "Database Query Error"))
  {
    if NoPanic(r) then ReturnError(r) else Ok(Response(INTERNAL_SERVER_ERROR, "Database Query Error"))
  }

  // ---------------------------------------------------------------------------
  // What the mapping promises
  // ---------------------------------------------------------------------------

  /** `r` with cause `c` put in at position `i` */
  function Insert(r: Rejection<Error>, i: nat, c: Cause<Error>): (r': Rejection<Error>)
    requires i <= |r.causes|
    ensures multiset(r'.causes) == multiset(r.causes) + multiset{c}
  {
    assert r.causes == r.causes[..i] + r.causes[i..];
    Rejection(r.causes[..i] + [c] + r.causes[i..])
  }

  /** A rejection whose causes are none of the given type gains one at `i`: `find` now stops there. */
  lemma InsertedIsFound(r: Rejection<Error>, i: nat, c: Cause<Error>)
    requires i <= |r.causes|
    requires Find(r, TypeOf(c)).None?
    ensures FindIndex(Insert(r, i, c).causes, TypeOf(c)) == Some(i)
  {
    var xs := Insert(r, i, c).causes;
    assert xs[i] == c;
    assert forall j :: 0 <= j < i ==> xs[j] == r.causes[j];
    assert forall j :: 0 <= j < i ==> r.causes[j] in r.causes;
  }

  /** A cause of another type leaves a type `find` did not find missing. */
  lemma InsertedKeepsAbsent(r: Rejection<Error>, i: nat, c: Cause<Error>, t: CauseType)
    requires i <= |r.causes|
    requires Find(r, t).None? && TypeOf(c) != t
    ensures Find(Insert(r, i, c), t).None?
  {
    var xs := Insert(r, i, c).causes;
    forall j | 0 <= j < |xs| ensures TypeOf(xs[j]) != t {
      if j < i {
        assert xs[j] == r.causes[j];
      } else if j > i {
        assert xs[j] == r.causes[j - 1];
      }
    }
  }

  /** A CORS rejection answers 403 with its text, whatever else the rejection holds. */
  lemma CorsOutranksEverything(r: Rejection<Error>, i: nat, text: string)
    requires i <= |r.causes|
    requires Find(r, CorsType).None?
    ensures NoPanic(Insert(r, i, CorsForbidden(text)))
    ensures ReturnError(Insert(r, i, CorsForbidden(text))) == Ok(Response(FORBIDDEN, text))
  {
    InsertedIsFound(r, i, CorsForbidden(text));
  }

  /** With no CORS cause, a body that did not deserialize answers 404 with its text, whatever errors come with it. */
  lemma BodyErrorOutranksErrors(r: Rejection<Error>, i: nat, text: string)
    requires i <= |r.causes|
    requires Find(r, CorsType).None? && Find(r, BodyType).None?
    ensures NoPanic(Insert(r, i, BodyDeserializeError(text)))
    ensures ReturnError(Insert(r, i, BodyDeserializeError(text))) == Ok(Response(NOT_FOUND, text))
  {
    InsertedIsFound(r, i, BodyDeserializeError(text));
    InsertedKeepsAbsent(r, i, BodyDeserializeError(text), CorsType);
  }

  /** With neither of those, an `InvalidId` answers 422 "No valid ID presented", whatever errors come with it. */
  lemma InvalidIdOutranksErrors(r: Rejection<Error>, i: nat)
    requires i <= |r.causes|
    requires Find(r, CorsType).None? && Find(r, BodyType).None?
    ensures NoPanic(Insert(r, i, InvalidId))
    ensures ReturnError(Insert(r, i, InvalidId)) == Ok(Response(UNPROCESSABLE_ENTITY, "No valid ID presented"))
  {
    assert Insert(r, i, InvalidId).causes[i] == InvalidId;
    InsertedKeepsAbsent(r, i, InvalidId, CorsType);
    InsertedKeepsAbsent(r, i, InvalidId, BodyType);
  }

  /**
    Of several custom errors only the first is looked at: a rejection whose
    causes before it are warp's own and after it are anything but
    framework causes answers as that error alone does.
   */
  lemma FirstErrorDecides(before: seq<Cause<Error>>, e: Error, after: seq<Cause<Error>>)
    requires forall c :: c in before ==> c.OtherKnown?
    requires forall c :: c in after ==> c.Custom? || c.OtherKnown?
    requires CodeReadable(e)
    ensures NoPanic(Rejection(before + [Custom(e)] + after))
    ensures ReturnError(Rejection(before + [Custom(e)] + after)) == ReturnError(RejectCustom(e))
    ensures ReturnError(RejectCustom(e)) == Ok(ErrorResponse(e))
  {
    var r := Rejection(before + [Custom(e)] + after);
    FirstErrorIsFound(before, e, after);
    assert NoFrameworkCause(r);
    assert NoFrameworkCause(RejectCustom(e));
    assert FindError(RejectCustom(e)) == Some(e) by {
      assert FindIndex(RejectCustom(e).causes, ErrorType) == Some(0);
    }
  }

  /** Under those conditions no framework cause is present and `find::<Error>()` returns `e`. */
  lemma FirstErrorIsFound(before: seq<Cause<Error>>, e: Error, after: seq<Cause<Error>>)
    requires forall c :: c in before ==> c.OtherKnown?
    requires forall c :: c in after ==> c.Custom? || c.OtherKnown?
    ensures NoFrameworkCause(Rejection(before + [Custom(e)] + after))
    ensures FindError(Rejection(before + [Custom(e)] + after)) == Some(e)
  {
    var xs := before + [Custom(e)] + after;
    forall j | 0 <= j < |xs| ensures TypeOf(xs[j]) in {ErrorType, OtherType} {
      if j < |before| {
        assert xs[j] == before[j] && before[j] in before;
      } else if j > |before| {
        assert xs[j] == after[j - |before| - 1] && after[j - |before| - 1] in after;
      }
    }
    forall j | 0 <= j < |before| ensures TypeOf(xs[j]) != ErrorType {
      assert xs[j] == before[j] && before[j] in before;
    }
    assert xs[|before|] == Custom(e);
    FindIndexAt(xs, ErrorType, |before|);
  }

  /** A rejection of nothing but warp's own causes, `reject()` among them, answers 404 "Route not found". */
  lemma UnmatchedIsRouteNotFound(r: Rejection<Error>)
    requires forall c :: c in r.causes ==> c.OtherKnown?
    ensures NoPanic(r)
    ensures ReturnError(r) == Ok(Response(NOT_FOUND, "Route not found"))
  {
  }

  /**
    The status of a handler's error (`warp::reject::custom(e)`) tells its
    class: 401 exactly for the three authentication errors, 422 exactly for
    a duplicate key, 500 exactly for the other server-side faults.
   */
  lemma StatusClassifiesError(e: Error)
    requires CodeReadable(e)
    ensures NoPanic(RejectCustom(e))
    ensures ReturnError(RejectCustom(e)).value.status == UNAUTHORIZED <==> e == WrongPassword || e == Unauthorized || e == TokenError
    ensures ReturnError(RejectCustom(e)).value.status == UNPROCESSABLE_ENTITY <==> IsDuplicateKey(e)
    ensures ReturnError(RejectCustom(e)).value.status == INTERNAL_SERVER_ERROR <==> IsServerFault(e) && !IsDuplicateKey(e)
    ensures ReturnError(RejectCustom(e)).value.status == NOT_FOUND <==> e == QuestionNotFound
    ensures ReturnError(RejectCustom(e)).value.status == EXPECTATION_FAILED <==> e == MissingParameters || e.ParseError?
    ensures ReturnError(RejectCustom(e)).value.status == RANGE_NOT_SATISFIABLE <==> e == InvalidRange
  {
    FirstErrorDecides([], e, []);
    assert [] + [Custom(e)] + [] == [Custom(e)];
  }

  /**
    The reply to each handler error (`warp::reject::custom(e)`), variant by
    variant, whatever detail the variant carries.
   */
  lemma ErrorReplies(e: Error)
    requires CodeReadable(e)
    ensures NoPanic(RejectCustom(e))
    ensures e == MissingParameters ==> ReturnError(RejectCustom(e)) == Ok(Response(EXPECTATION_FAILED, "Missing Parameters"))
    ensures e == InvalidRange ==> ReturnError(RejectCustom(e)) == Ok(Response(RANGE_NOT_SATISFIABLE, "Invalid range"))
    ensures e.ParseError? ==> ReturnError(RejectCustom(e)) == Ok(Response(EXPECTATION_FAILED, "Parse error: " + IntErrorText(e.kind)))
    ensures e == QuestionNotFound ==> ReturnError(RejectCustom(e)) == Ok(Response(NOT_FOUND, "Question not found"))
    ensures e == WrongPassword ==> ReturnError(RejectCustom(e)) == Ok(Response(UNAUTHORIZED, "Wrong E-Mail/Password combination"))
    ensures e == Unauthorized ==> ReturnError(RejectCustom(e)) == Ok(Response(UNAUTHORIZED, "Unauthorized"))
    ensures e == TokenError ==> ReturnError(RejectCustom(e)) == Ok(Response(UNAUTHORIZED, "Token Error"))
    ensures IsDuplicateKey(e) ==> ReturnError(RejectCustom(e)) == Ok(Response(UNPROCESSABLE_ENTITY, "Account already exists"))
    ensures e.DatabaseQueryError? && !IsDuplicateKey(e) ==>
      ReturnError(RejectCustom(e)) == Ok(Response(INTERNAL_SERVER_ERROR, "Database Query Error"))
    ensures e.ExternalApiError? ==> ReturnError(RejectCustom(e)) == Ok(Response(INTERNAL_SERVER_ERROR, "External api error"))
    ensures e.ClientError? || e.ServerError? || e.ArgonLibraryError? ==>
      ReturnError(RejectCustom(e)) == Ok(Response(INTERNAL_SERVER_ERROR, "Internal server error"))
  {
    FirstErrorDecides([], e, []);
    assert [] + [Custom(e)] + [] == [Custom(e)];
  }

  /** A server-side fault answers with one of three fixed texts: nothing of the wrapped error reaches the client. */
  lemma ServerFaultsDoNotLeak(e: Error)
    requires CodeReadable(e) && IsServerFault(e) && !IsDuplicateKey(e)
    ensures NoPanic(RejectCustom(e))
    ensures ReturnError(RejectCustom(e)).value.body in {"Database Query Error", "External api error", "Internal server error"}
    ensures ReturnError(RejectCustom(e)).value == ErrorResponse(WithoutDetail(e))
  {
    FirstErrorDecides([], e, []);
    assert [] + [Custom(e)] + [] == [Custom(e)];
  }

  /** The same variant with its wrapped detail blanked out */
  function WithoutDetail(e: Error): (e': Error)
    requires CodeReadable(e) && IsServerFault(e) && !IsDuplicateKey(e)
    ensures CodeReadable(e')
  {
    match e
    case DatabaseQueryError(_) => DatabaseQueryError(OtherSqlxError(""))
    case ExternalApiError(_) => ExternalApiError("")
    case ClientError(_) => ClientError(ApiLayerError(0, ""))
    case ServerError(_) => ServerError(ApiLayerError(0, ""))
    case ArgonLibraryError(_) => ArgonLibraryError("")
  }

  /** A lone database error with a readable code answers 422 for the duplicate key and 500 for every other code. */
  lemma DatabaseCodeResponse(code: string, n: nat)
    requires ParseU32(code) == Ok(n)
    ensures NoPanic(RejectCustom(DatabaseQueryError(Database(Some(code)))))
    ensures ReturnError(RejectCustom(DatabaseQueryError(Database(Some(code))))) ==
      if n == DUPLICATE_KEY then Ok(Response(UNPROCESSABLE_ENTITY, "Account already exists"))
      else Ok(Response(INTERNAL_SERVER_ERROR, "Database Query Error"))
  {
    assert FindIndex(RejectCustom(DatabaseQueryError(Database(Some(code)))).causes, ErrorType) == Some(0);
  }

  /** The two codes of the duplicate-key lemma read as the numbers they spell */
  lemma CodesRead()
    ensures ParseU32("23505") == Ok(23505) && ParseU32("23503") == Ok(23503)
  {
    assert ParseU32("23505") == Ok(23505);
  }

  /** The driver code 23505 is the one duplicate key; any other code is a plain database error. */
  lemma DuplicateKeyCode()
    ensures ReturnError(RejectCustom(DatabaseQueryError(Database(Some("23505"))))) == Ok(Response(UNPROCESSABLE_ENTITY, "Account already exists"))
    ensures ReturnError(RejectCustom(DatabaseQueryError(Database(Some("23503"))))) == Ok(Response(INTERNAL_SERVER_ERROR, "Database Query Error"))
    ensures ReturnError(RejectCustom(DatabaseQueryError(RowNotFound))) == Ok(Response(INTERNAL_SERVER_ERROR, "Database Query Error"))
  {
    CodesRead();
    DatabaseCodeResponse("23505", 23505);
    DatabaseCodeResponse("23503", 23503);
    assert FindIndex(RejectCustom(DatabaseQueryError(RowNotFound)).causes, ErrorType) == Some(0);
  }
}
