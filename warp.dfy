/**
  The parts of warp the handlers and the recovery step see: a rejection is
  the list of causes it carries, `Rejection::find::<T>()` picks the first
  cause of type T, and a reply is either a text with a status or a JSON value.
 */
module Warp {
  import opened Wrappers

  const OK: int := 200
  const CREATED: int := 201
  const UNAUTHORIZED: int := 401
  const FORBIDDEN: int := 403
  const NOT_FOUND: int := 404
  const RANGE_NOT_SATISFIABLE: int := 416
  const EXPECTATION_FAILED: int := 417
  const UNPROCESSABLE_ENTITY: int := 422
  const INTERNAL_SERVER_ERROR: int := 500

  /** One cause a rejection carries; `E` is the service's own error type. */
  datatype Cause<E> =
    | CorsForbidden(text: string)          // the CORS filter's rejection, with its Display text
    | BodyDeserializeError(text: string)  // a request body that did not deserialize, with its Display text
    | InvalidId                           // the service's `InvalidId` marker
    | Custom(error: E)                    // `warp::reject::custom(e)` for the service's `Error`
    | OtherKnown(text: string)            // any other rejection warp raises itself (a missing header, a wrong method, ...)

  /** The type a cause has, as `find::<T>()` tells them apart */
  datatype CauseType = CorsType | BodyType | InvalidIdType | ErrorType | OtherType

  function TypeOf<E>(c: Cause<E>): CauseType
  {
    match c
    case CorsForbidden(_) => CorsType
    case BodyDeserializeError(_) => BodyType
    case InvalidId => InvalidIdType
    case Custom(_) => ErrorType
    case OtherKnown(_) => OtherType
  }

  /** A rejection and its causes in order; `warp::reject::reject()` carries none. */
  datatype Rejection<E> = Rejection(causes: seq<Cause<E>>)

  /** `warp::reject::custom(e)` */
  function RejectCustom<E>(e: E): Rejection<E>
  {
    Rejection([Custom(e)])
  }

  /** `warp::reject::reject()`, the plain "not found" rejection */
  function Reject<E>(): Rejection<E>
  {
    Rejection([])
  }

  /** The position of the first cause of type `t`, as `find::<T>()` searches */
  function FindIndex<E>(causes: seq<Cause<E>>, t: CauseType): (r: Option<nat>)
    ensures r.None? <==> forall i :: 0 <= i < |causes| ==> TypeOf(causes[i]) != t
    ensures r.Some? ==> r.value < |causes| && TypeOf(causes[r.value]) == t
    ensures r.Some? ==> forall j :: 0 <= j < r.value ==> TypeOf(causes[j]) != t
    decreases |causes|
  {
    if causes == [] then None
    else if TypeOf(causes[0]) == t then Some(0)
    else
      match FindIndex(causes[1..], t)
      case None => None
      case Some(i) => Some(i + 1)
  }

  /** A cause of type `t` with none before it is where `find` stops. */
  lemma FindIndexAt<E>(causes: seq<Cause<E>>, t: CauseType, i: nat)
    requires i < |causes| && TypeOf(causes[i]) == t
    requires forall j :: 0 <= j < i ==> TypeOf(causes[j]) != t
    ensures FindIndex(causes, t) == Some(i)
  {
    assert FindIndex(causes, t).Some?;
  }

  /** `r.find::<T>()`: the first cause of type `t`, if any */
  function Find<E>(r: Rejection<E>, t: CauseType): (found: Option<Cause<E>>)
    ensures found.Some? ==> TypeOf(found.value) == t && found.value in r.causes
    ensures found.None? <==> forall c :: c in r.causes ==> TypeOf(c) != t
  {
    match FindIndex(r.causes, t)
    case None => None
    case Some(i) => Some(r.causes[i])
  }

  /** `r.find::<Error>()` for the service's own error type */
  function FindError<E>(r: Rejection<E>): (e: Option<E>)
    ensures e.Some? ==> Custom(e.value) in r.causes
    ensures e.None? <==> forall c :: c in r.causes ==> !c.Custom?
  {
    match Find(r, ErrorType)
    case None => None
    case Some(c) => Some(c.error)
  }

  /** The same rejection with every custom error translated by `f` */
  function MapCauses<E, F>(r: Rejection<E>, f: E -> F): (m: Rejection<F>)
    ensures |m.causes| == |r.causes|
    ensures forall i :: 0 <= i < |r.causes| ==> TypeOf(m.causes[i]) == TypeOf(r.causes[i])
  {
    Rejection(seq(|r.causes|, i requires 0 <= i < |r.causes| =>
      match r.causes[i]
      case CorsForbidden(t) => CorsForbidden(t)
      case BodyDeserializeError(t) => BodyDeserializeError(t)
      case InvalidId => InvalidId
      case Custom(e) => Custom(f(e))
      case OtherKnown(t) => OtherKnown(t)))
  }

  /** Translating the custom errors keeps where every type is first found, and translates the error found. */
  lemma MapCausesFind<E, F>(r: Rejection<E>, f: E -> F, t: CauseType)
    ensures FindIndex(MapCauses(r, f).causes, t) == FindIndex(r.causes, t)
    ensures FindError(MapCauses(r, f)) == match FindError(r) case None => None case Some(e) => Some(f(e))
  {
    var m := MapCauses(r, f);
    FindIndexDeterminedByTypes(m.causes, r.causes, t);
    FindIndexDeterminedByTypes(m.causes, r.causes, ErrorType);
    match FindIndex(r.causes, ErrorType)
    case None =>
    case Some(i) =>
      assert r.causes[i].Custom?;
      assert m.causes[i] == Custom(f(r.causes[i].error));
  }

  /** Where `find` stops depends only on the types of the causes. */
  lemma {:induction false} FindIndexDeterminedByTypes<E, F>(xs: seq<Cause<E>>, ys: seq<Cause<F>>, t: CauseType)
    requires |xs| == |ys|
    requires forall i :: 0 <= i < |xs| ==> TypeOf(xs[i]) == TypeOf(ys[i])
    ensures FindIndex(xs, t) == FindIndex(ys, t)
    decreases |xs|
  {
    if xs != [] {
      FindIndexDeterminedByTypes(xs[1..], ys[1..], t);
    }
  }

  /** `warp::reply::with_status(text, status)` as the recovery step produces it */
  datatype Response = Response(status: int, body: string)

  /** A handler's reply: a text with a status, or `warp::reply::json(&value)`, which has status 200 */
  datatype Reply<P> = WithStatus(status: int, text: string) | Json(payload: P)
}
