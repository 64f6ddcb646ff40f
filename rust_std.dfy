/**
  The pieces of Rust's standard library the service leans on, written out so
  that their edge cases are part of the model: fixed-width integers,
  `str::parse` for integers with the kind of `ParseIntError` it reports,
  `Display` of integers, `std::io::Error`, and `Debug` of strings.
 */
module RustStd {
  import opened Wrappers

  const TWO_TO_THE_16: int := 0x1_0000
  const TWO_TO_THE_31: int := 0x8000_0000
  const TWO_TO_THE_32: int := 0x1_0000_0000
  const TWO_TO_THE_64: int := 0x1_0000_0000_0000_0000

  const UINT32_MAX: int := TWO_TO_THE_32 - 1
  const UINT64_MAX: int := TWO_TO_THE_64 - 1
  const INT32_MAX: int := TWO_TO_THE_31 - 1

  type uint16 = x: int | 0 <= x < TWO_TO_THE_16
  type uint32 = x: int | 0 <= x < TWO_TO_THE_32
  /** `usize` on the 64-bit targets the service is built for */
  type uint64 = x: int | 0 <= x < TWO_TO_THE_64
  type int32 = x: int | -TWO_TO_THE_31 <= x < TWO_TO_THE_31

  // ---------------------------------------------------------------------------
  // Parsing integers: `str::parse::<u32>()`, `::<usize>()`, `::<i32>()`
  // ---------------------------------------------------------------------------

  /** The kind of a `std::num::ParseIntError` */
  datatype IntErrorKind = Empty | InvalidDigit | PosOverflow | NegOverflow

  /** `Display` of a `ParseIntError` */
  function IntErrorText(kind: IntErrorKind): string
  {
    match kind
    case Empty => "cannot parse integer from empty string"
    case InvalidDigit => "invalid digit found in string"
    case PosOverflow => "number too large to fit in target type"
    case NegOverflow => "number too small to fit in target type"
  }

  predicate IsDigit(c: char)
  {
    '0' <= c <= '9'
  }

  function DigitValue(c: char): (d: nat)
    requires IsDigit(c)
    ensures d < 10
  {
    c as int - '0' as int
  }

  function DigitChar(d: nat): (c: char)
    requires d < 10
    ensures IsDigit(c) && DigitValue(c) == d
  {
    ('0' as int + d) as char
  }

  predicate AllDigits(s: string)
  {
    forall i :: 0 <= i < |s| ==> IsDigit(s[i])
  }

  /** The number a string of decimal digits denotes; the empty string denotes 0. */
  function DecimalValue(s: string): nat
    requires AllDigits(s)
    decreases |s|
  {
    if s == [] then 0 else DecimalValue(s[..|s| - 1]) * 10 + DigitValue(s[|s| - 1])
  }

  /**
    One turn of the digit loop of `from_str_radix` in base 10: a non-digit is
    an `InvalidDigit`; otherwise the accumulator is multiplied by ten and the
    digit added, and passing `bound` is the `overflow` error of the sign being
    parsed. (For a negative number the loop subtracts; the magnitude is
    accumulated here, and its bound is one more than the positive bound.)
   */
  function Step(acc: nat, c: char, bound: nat, overflow: IntErrorKind): (r: Result<nat, IntErrorKind>)
    ensures r.Ok? ==> r.value <= bound
    ensures r.Ok? <==> IsDigit(c) && acc * 10 + DigitValue(c) <= bound
  {
    if !IsDigit(c) then Err(InvalidDigit)
    else if acc * 10 + DigitValue(c) > bound then Err(overflow)
    else Ok(acc * 10 + DigitValue(c))
  }

  /** The digit loop, left to right: the first failing digit decides the error. */
  function Accumulate(digits: string, acc: nat, bound: nat, overflow: IntErrorKind): (r: Result<nat, IntErrorKind>)
    requires acc <= bound
    ensures r.Ok? ==> r.value <= bound
    ensures r.Err? ==> r.error == InvalidDigit || r.error == overflow
    decreases |digits|
  {
    if digits == [] then Ok(acc)
    else
      match Step(acc, digits[0], bound, overflow)
      case Err(e) => Err(e)
      case Ok(next) => Accumulate(digits[1..], next, bound, overflow)
  }

  /** What scanning one more character does to the outcome of the digits before it */
  function Continue(before: Result<nat, IntErrorKind>, c: char, bound: nat, overflow: IntErrorKind): Result<nat, IntErrorKind>
  {
    match before
    case Err(e) => Err(e)
    case Ok(v) => Step(v, c, bound, overflow)
  }

  lemma {:induction false} AccumulateSnoc(ds: string, c: char, acc: nat, bound: nat, overflow: IntErrorKind)
    requires acc <= bound
    ensures Accumulate(ds + [c], acc, bound, overflow) == Continue(Accumulate(ds, acc, bound, overflow), c, bound, overflow)
    decreases |ds|
  {
    if ds == [] {
      assert ds + [c] == [c];
      assert [c][1..] == [];
    } else {
      assert (ds + [c])[0] == ds[0];
      assert (ds + [c])[1..] == ds[1..] + [c];
      match Step(acc, ds[0], bound, overflow)
      case Err(e) =>
      case Ok(next) =>
        AccumulateSnoc(ds[1..], c, next, bound, overflow);
    }
  }

  /** The digit loop accepts exactly the digit strings whose value is within the bound, and yields that value. */
  lemma {:induction false} AccumulateDenotes(ds: string, bound: nat, overflow: IntErrorKind)
    ensures Accumulate(ds, 0, bound, overflow).Ok? <==> AllDigits(ds) && DecimalValue(ds) <= bound
    ensures Accumulate(ds, 0, bound, overflow).Ok? ==> Accumulate(ds, 0, bound, overflow).value == DecimalValue(ds)
    decreases |ds|
  {
    if ds != [] {
      var init, c := ds[..|ds| - 1], ds[|ds| - 1];
      assert ds == init + [c];
      AccumulateDenotes(init, bound, overflow);
      AccumulateSnoc(init, c, 0, bound, overflow);
      assert AllDigits(ds) <==> AllDigits(init) && IsDigit(c) by {
        if AllDigits(init) && IsDigit(c) {
          forall i | 0 <= i < |ds| ensures IsDigit(ds[i]) {
            if i < |init| { assert ds[i] == init[i]; }
          }
        }
        if AllDigits(ds) {
          forall i | 0 <= i < |init| ensures IsDigit(init[i]) {
            assert init[i] == ds[i];
          }
        }
      }
      if AllDigits(ds) {
        assert DecimalValue(ds) == DecimalValue(init) * 10 + DigitValue(c);
      }
    }
  }

  /** The digits of an unsigned literal: everything after an optional leading `+` */
  function UnsignedDigits(s: string): string
  {
    if |s| > 0 && s[0] == '+' then s[1..] else s
  }

  /** `s` spells an unsigned number no larger than `max`: an optional `+`, then one or more decimal digits. */
  predicate IsUnsignedLiteral(s: string, max: nat)
  {
    var ds := UnsignedDigits(s);
    |ds| > 0 && AllDigits(ds) && DecimalValue(ds) <= max
  }

  /** `str::parse` for an unsigned integer type whose largest value is `max` */
  function ParseUnsigned(s: string, max: nat): (r: Result<nat, IntErrorKind>)
    ensures r.Ok? ==> r.value <= max
    ensures s == [] ==> r == Err(Empty)
  {
    if s == [] then Err(Empty)
    else if |s| == 1 && (s[0] == '+' || s[0] == '-') then Err(InvalidDigit)
    else if s[0] == '+' then Accumulate(s[1..], 0, max, PosOverflow)
    else Accumulate(s, 0, max, PosOverflow)
  }

  lemma UnsignedParseMeaning(s: string, max: nat)
    ensures ParseUnsigned(s, max).Ok? <==> IsUnsignedLiteral(s, max)
    ensures ParseUnsigned(s, max).Ok? ==> ParseUnsigned(s, max).value == DecimalValue(UnsignedDigits(s))
  {
    if s != [] {
      AccumulateDenotes(UnsignedDigits(s), max, PosOverflow);
      if |s| == 1 && s[0] == '-' {
        assert !IsDigit(UnsignedDigits(s)[0]);
      }
    }
  }

  function ParseU32(s: string): (r: Result<uint32, IntErrorKind>)
    ensures r.Ok? <==> IsUnsignedLiteral(s, UINT32_MAX)
    ensures r.Ok? ==> r.value == DecimalValue(UnsignedDigits(s))
  {
    UnsignedParseMeaning(s, UINT32_MAX);
    match ParseUnsigned(s, UINT32_MAX)
    case Ok(v) => Ok(v)
    case Err(e) => Err(e)
  }

  /** `str::parse::<usize>()` on a 64-bit target */
  function ParseUsize(s: string): (r: Result<uint64, IntErrorKind>)
    ensures r.Ok? <==> IsUnsignedLiteral(s, UINT64_MAX)
    ensures r.Ok? ==> r.value == DecimalValue(UnsignedDigits(s))
  {
    UnsignedParseMeaning(s, UINT64_MAX);
    match ParseUnsigned(s, UINT64_MAX)
    case Ok(v) => Ok(v)
    case Err(e) => Err(e)
  }

  /** `str::parse::<i32>()`: an optional sign, then the digits; a `-` number may reach -2^31. */
  function ParseI32(s: string): (r: Result<int32, IntErrorKind>)
    ensures s == [] ==> r == Err(Empty)
    ensures |s| > 0 && s[0] == '-' ==>
      (r.Ok? <==> |s| > 1 && AllDigits(s[1..]) && DecimalValue(s[1..]) <= TWO_TO_THE_31) &&
      (r.Ok? ==> r.value == 0 - DecimalValue(s[1..]))
    ensures !(|s| > 0 && s[0] == '-') ==>
      (r.Ok? <==> IsUnsignedLiteral(s, INT32_MAX)) &&
      (r.Ok? ==> r.value == DecimalValue(UnsignedDigits(s)))
  {
    if s == [] then Err(Empty)
    else if |s| == 1 && (s[0] == '+' || s[0] == '-') then Err(InvalidDigit)
    else if s[0] == '-' then
      AccumulateDenotes(s[1..], TWO_TO_THE_31, NegOverflow);
      match Accumulate(s[1..], 0, TWO_TO_THE_31, NegOverflow)
      case Ok(m) => Ok(0 - m as int)
      case Err(e) => Err(e)
    else
      AccumulateDenotes(UnsignedDigits(s), INT32_MAX, PosOverflow);
      match Accumulate(UnsignedDigits(s), 0, INT32_MAX, PosOverflow)
      case Ok(m) => Ok(m)
      case Err(e) => Err(e)
  }

  // ---------------------------------------------------------------------------
  // Display of integers
  // ---------------------------------------------------------------------------

  /** `Display` of a non-negative integer: its decimal digits, without leading zeros */
  function NatToString(n: nat): (s: string)
    ensures |s| > 0 && AllDigits(s) && DecimalValue(s) == n
    ensures |s| > 1 ==> s[0] != '0'
    decreases n
  {
    if n < 10 then [DigitChar(n)]
    else
      var init := NatToString(n / 10);
      var s := init + [DigitChar(n % 10)];
      assert s[..|s| - 1] == init;
      assert AllDigits(s) by {
        forall i | 0 <= i < |s| ensures IsDigit(s[i]) {
          if i < |init| { assert s[i] == init[i]; }
        }
      }
      s
  }

  /**
    `Display` of an `i32`: a minus sign for a negative number, then the
    digits of its magnitude. The text is never empty, holds no comma, and
    `parse::<i32>()` reads it back as the same number.
   */
  function Int32ToString(v: int32): (s: string)
    ensures |s| > 0 && ',' !in s
    ensures ParseI32(s) == Ok(v)
  {
    if v < 0 then "-" + NatToString(0 - v as int) else NatToString(v)
  }

  // ---------------------------------------------------------------------------
  // std::io::Error
  // ---------------------------------------------------------------------------

  /** The kinds of `std::io::ErrorKind` the service constructs */
  datatype IoErrorKind = InvalidInput

  datatype IoError = IoError(kind: IoErrorKind, message: string)

  // ---------------------------------------------------------------------------
  // Debug of strings, vectors of strings and options of those
  // ---------------------------------------------------------------------------

  /** `char::escape_debug` for the characters it writes with a backslash escape */
  function EscapeChar(c: char): string
  {
    if c == '\0' then "\\0"
    else if c == '\t' then "\\t"
    else if c == '\r' then "\\r"
    else if c == '\n' then "\\n"
    else if c == '\\' then "\\\\"
    else if c == '"' then "\\\""
    else [c]
  }

  function Escape(s: string): string
    decreases |s|
  {
    if s == [] then [] else EscapeChar(s[0]) + Escape(s[1..])
  }

  /** The character a backslash escape stands for */
  function EscapedChar(c: char): char
  {
    if c == '0' then '\0'
    else if c == 't' then '\t'
    else if c == 'r' then '\r'
    else if c == 'n' then '\n'
    else c
  }

  /** Reads back the escapes `Escape` writes (the inverse used to state what `Escape` preserves) */
  function Unescape(s: string): string
    decreases |s|
  {
    if s == [] then []
    else if s[0] == '\\' && |s| >= 2 then [EscapedChar(s[1])] + Unescape(s[2..])
    else [s[0]] + Unescape(s[1..])
  }

  /** Unescaping reads one escaped character back and goes on with the rest. */
  lemma UnescapeEscapeChar(c: char, rest: string)
    ensures Unescape(EscapeChar(c) + rest) == [c] + Unescape(rest)
  {
    var t := EscapeChar(c) + rest;
    if |EscapeChar(c)| == 2 {
      assert t[0] == '\\' && EscapedChar(t[1]) == c && t[2..] == rest;
    } else {
      assert t[0] == c != '\\' && t[1..] == rest;
    }
  }

  /** Escaping loses nothing: the escaped text reads back as the original string. */
  lemma {:induction false} EscapeRoundTrip(s: string)
    ensures Unescape(Escape(s)) == s
    decreases |s|
  {
    if s != [] {
      EscapeRoundTrip(s[1..]);
      UnescapeEscapeChar(s[0], Escape(s[1..]));
      assert [s[0]] + s[1..] == s;
    }
  }

  /** `Debug` of a `String`: the escaped text between double quotes */
  function DebugString(s: string): string
  {
    "\"" + Escape(s) + "\""
  }

  /** The elements' `Debug` texts separated by `", "` */
  function DebugItems(items: seq<string>): string
    decreases |items|
  {
    if items == [] then []
    else if |items| == 1 then DebugString(items[0])
    else DebugString(items[0]) + ", " + DebugItems(items[1..])
  }

  /** `Debug` of an `Option<Vec<String>>` */
  function DebugTags(tags: Option<seq<string>>): string
  {
    match tags
    case None => "None"
    case Some(items) => "Some([" + DebugItems(items) + "])"
  }
}
