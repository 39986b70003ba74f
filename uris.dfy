/**
 * The part of the platform's URI support that the logs provider relies on:
 * a hierarchical URI value, `Long.parseLong`, `Long.toString`,
 * `ContentUris.parseId` and its inverse `ContentUris.withAppendedId`.
 */
module Uris {
  import opened Wrappers

  /** Bounds of a Java/Kotlin `Long`. */
  const LONG_MIN: int := -0x8000_0000_0000_0000
  const LONG_MAX: int := 0x7FFF_FFFF_FFFF_FFFF

  /** A decoded path segment; `Uri.getPathSegments` never yields an empty one. */
  type Segment = s: string | s != [] witness "0"

  /** A hierarchical URI such as `content://authority/logs/42`: the authority may be absent (`null`). */
  datatype Uri = Uri(scheme: string, authority: Option<string>, segments: seq<Segment>)

  /** What `Long.parseLong` throws, with the string it was given. */
  datatype NumberFormatException = NumberFormatException(input: string)

  /** The textual form of a URI, used in error messages. */
  function UriToString(uri: Uri): string {
    uri.scheme + ":" + (if uri.authority.Some? then "//" + uri.authority.value else "") + PathToString(uri.segments)
  }

  function PathToString(segments: seq<Segment>): string {
    if segments == [] then "" else "/" + segments[0] + PathToString(segments[1..])
  }

  predicate IsDigit(c: char) {
    '0' <= c <= '9'
  }

  predicate AllDigits(s: string) {
    forall i :: 0 <= i < |s| ==> IsDigit(s[i])
  }

  function DigitValue(c: char): (d: nat)
    requires IsDigit(c)
    ensures d < 10
  {
    c as int - '0' as int
  }

  function DigitChar(d: nat): (c: char)
    requires d < 10
    ensures IsDigit(c) && DigitValue(c) == d
  {
    (d + '0' as int) as char
  }

  /** The value of a string of decimal digits, accumulated from the left as `Long.parseLong` does. */
  function DigitsValue(s: string): nat
    requires AllDigits(s)
  {
    if s == [] then 0 else DigitsValue(s[..|s| - 1]) * 10 + DigitValue(s[|s| - 1])
  }

  /** A digit string as `Long.toString` writes it: non-empty, and without a leading zero unless it is "0". */
  predicate Canonical(s: string) {
    s != [] && AllDigits(s) && (s[0] == '0' ==> |s| == 1)
  }

  /** The decimal digits of a non-negative number. */
  function NatToDigits(n: nat): (s: string)
    ensures Canonical(s)
    ensures s[0] == '0' <==> n == 0
    decreases n
  {
    if n < 10 then [DigitChar(n)] else NatToDigits(n / 10) + [DigitChar(n % 10)]
  }

  /** `Long.toString(n)`: an optional minus sign followed by the digits of |n|. */
  function LongToString(n: int): string {
    if n < 0 then "-" + NatToDigits(-n) else NatToDigits(n)
  }

  /**
   * `Long.parseLong(s)` in base 10: an optional `-` or `+`, then at least one digit;
   * the value must fit in a `Long`. Anything else throws `NumberFormatException`.
   */
  function ParseLong(s: string): (r: Result<int, NumberFormatException>)
    ensures r.Success? ==> LONG_MIN <= r.value <= LONG_MAX
    ensures r.Failure? ==> r.error == NumberFormatException(s)
    ensures s == [] ==> r.Failure?
    ensures AllDigits(s) && s != [] ==>
      r == if DigitsValue(s) <= LONG_MAX then Success(DigitsValue(s)) else Failure(NumberFormatException(s))
    ensures |s| > 1 && s[0] == '-' && AllDigits(s[1..]) ==>
      r == if DigitsValue(s[1..]) <= -LONG_MIN then Success(-(DigitsValue(s[1..]) as int)) else Failure(NumberFormatException(s))
    ensures |s| > 1 && s[0] == '+' && AllDigits(s[1..]) ==>
      r == if DigitsValue(s[1..]) <= LONG_MAX then Success(DigitsValue(s[1..])) else Failure(NumberFormatException(s))
    // Anything other than an optional sign followed by one or more digits is refused.
    ensures r.Success? ==> (s != [] && AllDigits(s)) || (|s| > 1 && (s[0] == '-' || s[0] == '+') && AllDigits(s[1..]))
  {
    if s == [] then Failure(NumberFormatException(s))
    else
      var signed := s[0] == '-' || s[0] == '+';
      var digits := if signed then s[1..] else s;
      if digits == [] || !AllDigits(digits) then Failure(NumberFormatException(s))
      else
        var v: int := if s[0] == '-' then -(DigitsValue(digits) as int) else DigitsValue(digits);
        if LONG_MIN <= v <= LONG_MAX then Success(v) else Failure(NumberFormatException(s))
  }

  /** The last path segment, `null` when the path is empty. */
  function LastPathSegment(uri: Uri): (r: Option<Segment>)
    ensures r.None? <==> uri.segments == []
    ensures r.Some? ==> r.value == uri.segments[|uri.segments| - 1]
  {
    if uri.segments == [] then None else Some(uri.segments[|uri.segments| - 1])
  }

  /** `ContentUris.parseId(uri)`: -1 for an empty path, otherwise `Long.parseLong` of the last segment. */
  function ParseId(uri: Uri): (r: Result<int, NumberFormatException>)
    ensures uri.segments == [] ==> r == Success(-1)
    ensures uri.segments != [] ==> r == ParseLong(uri.segments[|uri.segments| - 1])
  {
    match LastPathSegment(uri)
    case None => Success(-1)
    case Some(last) => ParseLong(last)
  }

  /** `ContentUris.withAppendedId(uri, id)`: the same URI with `Long.toString(id)` appended to its path. */
  function WithAppendedId(uri: Uri, id: int): (r: Uri)
    ensures r.scheme == uri.scheme && r.authority == uri.authority
    ensures |r.segments| == |uri.segments| + 1 && r.segments[..|uri.segments|] == uri.segments
    ensures r.segments[|uri.segments|] == LongToString(id)
  {
    var last: Segment := LongToString(id);
    uri.(segments := uri.segments + [last])
  }

  /** Reading back the digits of a number gives the number. */
  lemma {:induction false} DigitsOfNat(n: nat)
    ensures DigitsValue(NatToDigits(n)) == n
    decreases n
  {
    if n >= 10 {
      var s := NatToDigits(n);
      assert s[..|s| - 1] == NatToDigits(n / 10);
      DigitsOfNat(n / 10);
    }
  }

  /** A canonical digit string is the digits of its own value. */
  lemma {:induction false} NatOfDigits(s: string)
    requires Canonical(s)
    ensures NatToDigits(DigitsValue(s)) == s
    decreases |s|
  {
    if |s| > 1 {
      var p := s[..|s| - 1];
      assert Canonical(p) && p[0] != '0';
      NatOfDigits(p);
      NonZeroLead(p);
      var v := DigitsValue(s);
      assert v / 10 == DigitsValue(p) && v % 10 == DigitValue(s[|s| - 1]);
      assert s == p + [s[|s| - 1]];
    }
  }

  /** A digit string that does not start with '0' has a positive value. */
  lemma {:induction false} NonZeroLead(s: string)
    requires s != [] && AllDigits(s) && s[0] != '0'
    ensures DigitsValue(s) > 0
    decreases |s|
  {
    if |s| > 1 {
      NonZeroLead(s[..|s| - 1]);
    }
  }

  /** `Long.parseLong(Long.toString(n)) == n` for every long `n`. */
  lemma ParseLongOfToString(n: int)
    requires LONG_MIN <= n <= LONG_MAX
    ensures ParseLong(LongToString(n)) == Success(n)
  {
    var s := LongToString(n);
    if n < 0 {
      DigitsOfNat(-n);
      assert s[1..] == NatToDigits(-n);
    } else {
      DigitsOfNat(n);
    }
  }

  /** `parseId` undoes `withAppendedId` for every long id. */
  lemma ParseIdOfAppendedId(uri: Uri, id: int)
    requires LONG_MIN <= id <= LONG_MAX
    ensures ParseId(WithAppendedId(uri, id)) == Success(id)
  {
    ParseLongOfToString(id);
  }

  /**
   * `withAppendedId` undoes `parseId` on a URI whose last segment is a canonical
   * digit string that fits in a long.
   */
  lemma AppendedIdOfParseId(uri: Uri)
    requires uri.segments != [] && Canonical(uri.segments[|uri.segments| - 1])
    requires ParseId(uri).Success?
    ensures WithAppendedId(uri.(segments := uri.segments[..|uri.segments| - 1]), ParseId(uri).value) == uri
  {
    var last := uri.segments[|uri.segments| - 1];
    NatOfDigits(last);
    assert uri.segments[..|uri.segments| - 1] + [last] == uri.segments;
  }
}
