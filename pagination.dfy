/**
  `types/pagination.rs`: the `limit` and `offset` query parameters of the
  question listing. A missing or unreadable value falls back to a default,
  so reading the parameters never fails.
 */
module TypesPagination {
  import opened Wrappers
  import opened RustStd

  /** The query string, as warp hands it over: a `HashMap<String, String>` */
  type Params = map<string, string>

  datatype Pagination = Pagination(limit: Option<uint32>, offset: uint32)

  /** `params[key]` is there and `parse::<u32>()` accepts it */
  predicate ReadsAsU32(params: Params, key: string)
  {
    key in params && IsUnsignedLiteral(params[key], UINT32_MAX)
  }

  /** `get_value`: the value under `key` as a `u32`, or `default` when it is missing or does not parse */
  function GetValue(key: string, params: Params, default: Option<uint32>): (v: Option<uint32>)
    ensures ReadsAsU32(params, key) ==> v == Some(DecimalValue(UnsignedDigits(params[key])))
    ensures !ReadsAsU32(params, key) ==> v == default
  {
    if key in params then
      match ParseU32(params[key])
      case Ok(val) => Some(val)
      case Err(_) => default
    else
      default
  }

  /** `Pagination::new`; the `unwrap` of the offset cannot fail because its default is `Some(0)`. */
  function New(params: Params): (p: Pagination)
    ensures p.limit.Some? <==> ReadsAsU32(params, "limit")
    ensures p.limit.Some? ==> p.limit.value == DecimalValue(UnsignedDigits(params["limit"]))
    ensures ReadsAsU32(params, "offset") ==> p.offset == DecimalValue(UnsignedDigits(params["offset"]))
    ensures !ReadsAsU32(params, "offset") ==> p.offset == 0
  {
    var limit := GetValue("limit", params, None);
    var offset := GetValue("offset", params, Some(0));
    Pagination(limit, offset.value)
  }

  /** `get_pagination`: `Pagination::new` of the parameters; with neither value readable, no limit and offset 0 */
  function GetPagination(params: Params): (p: Pagination)
    ensures p == New(params)
    ensures !ReadsAsU32(params, "limit") && !ReadsAsU32(params, "offset") ==> p == Pagination(None, 0)
  {
    New(params)
  }

  /**
    `x as i32` for a `u32`: the `int32` that agrees with `x` modulo 2^32,
    which is `x` itself below 2^31 and negative from there on.
   */
  function AsI32(x: uint32): (r: int32)
    ensures (x - r) % TWO_TO_THE_32 == 0
    ensures x < TWO_TO_THE_31 <==> r >= 0
    ensures x < TWO_TO_THE_31 ==> r == x
  {
    if x < TWO_TO_THE_31 then x else x - TWO_TO_THE_32
  }

  /** `as i32` loses nothing: two `u32` values that cast alike are equal. */
  lemma AsI32Injective(x: uint32, y: uint32)
    requires AsI32(x) == AsI32(y)
    ensures x == y
  {
  }

  /** `get_limit` */
  function GetLimit(p: Pagination): (l: Option<int32>)
    ensures l.None? <==> p.limit.None?
    ensures l.Some? ==> l.value == AsI32(p.limit.value)
  {
    match p.limit
    case Some(limit) => Some(AsI32(limit))
    case None => None
  }

  /** `get_offset` */
  function GetOffset(p: Pagination): (o: int32)
    ensures o == AsI32(p.offset)
  {
    AsI32(p.offset)
  }

  /** Only the two keys it reads matter: every other parameter is ignored. */
  lemma OnlyLimitAndOffsetMatter(params: Params, other: Params)
    requires forall k :: k in {"limit", "offset"} ==> (k in params <==> k in other)
    requires forall k :: k in {"limit", "offset"} && k in params ==> params[k] == other[k]
    ensures New(params) == New(other)
  {
    assert "limit" in {"limit", "offset"} && "offset" in {"limit", "offset"};
  }

  /** A value that does not parse counts as no value at all. */
  lemma UnreadableIsMissing(params: Params, key: string)
    requires key in params && !ReadsAsU32(params, key)
    ensures New(params) == New(params - {key})
  {
    var p' := params - {key};
    assert forall k :: k != key ==> (ReadsAsU32(params, k) <==> ReadsAsU32(p', k));
  }

  /** Printing a number below 2^31 as the `limit` parameter gives that number back from `get_limit`. */
  lemma LimitRoundTrip(params: Params, v: nat)
    requires v < TWO_TO_THE_31
    ensures GetLimit(New(params["limit" := NatToString(v)])) == Some(v)
  {
    var s := NatToString(v);
    assert s[0] != '+' by { assert IsDigit(s[0]); }
    assert UnsignedDigits(s) == s;
  }

  /** Printing a number below 2^31 as the `offset` parameter gives that number back from `get_offset`. */
  lemma OffsetRoundTrip(params: Params, v: nat)
    requires v < TWO_TO_THE_31
    ensures GetOffset(New(params["offset" := NatToString(v)])) == v
  {
    var s := NatToString(v);
    assert s[0] != '+' by { assert IsDigit(s[0]); }
    assert UnsignedDigits(s) == s;
  }

  /** A limit of 2^31 or more parses, but reaches the store as that number less 2^32, a negative number. */
  lemma LargeLimitTurnsNegative(params: Params, v: nat)
    requires TWO_TO_THE_31 <= v <= UINT32_MAX
    ensures GetLimit(New(params["limit" := NatToString(v)])) == Some(v - TWO_TO_THE_32)
    ensures v - TWO_TO_THE_32 < 0
  {
    var s := NatToString(v);
    assert s[0] != '+' by { assert IsDigit(s[0]); }
    assert UnsignedDigits(s) == s;
  }

  /** The module's unit tests, one `ensures` per `assert_eq!` */
  lemma PaginationTests()
    // valid_pagination and get_valid_pagination
    ensures GetLimit(New(map["limit" := "1", "offset" := "1"])) == Some(1)
    ensures GetOffset(New(map["limit" := "1", "offset" := "1"])) == 1
    ensures GetLimit(GetPagination(map["limit" := "1", "offset" := "1"])) == Some(1)
    ensures GetOffset(GetPagination(map["limit" := "1", "offset" := "1"])) == 1
    // missing_offset_pagination
    ensures GetLimit(New(map["limit" := "1"])) == Some(1)
    ensures GetOffset(New(map["limit" := "1"])) == 0
    // missing_limit_pagination
    ensures GetLimit(New(map["offset" := "1"])) == None
    ensures GetOffset(New(map["offset" := "1"])) == 1
    // missing_both_pagination
    ensures GetLimit(New(map[])) == None
    ensures GetOffset(New(map[])) == 0
    // get_invalid_pagination
    ensures GetLimit(GetPagination(map["limit" := "one", "offset" := "one"])) == None
    ensures GetOffset(GetPagination(map["limit" := "one", "offset" := "one"])) == 0
  {
    assert ParseU32("1") == Ok(1);
    assert !IsDigit('o');
    assert ParseU32("one").Err?;
  }
}
