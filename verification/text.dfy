/**
 * The string primitives the source relies on, written out: JavaScript's
 * whitespace class (what `String.prototype.trim` strips and what `\s`
 * matches), `trim`, `split(/\s+/)`, the `/^\d+$/` digit test, `parseInt` on
 * digit strings, number-to-decimal conversion in template strings, and
 * UTF-16 lengths and code units.
 */
module Text {

  /** JavaScript WhiteSpace and LineTerminator code points. */
  predicate IsSpace(c: char) {
    var n := c as int;
    n == 0x09 || n == 0x0A || n == 0x0B || n == 0x0C || n == 0x0D || n == 0x20
    || n == 0xA0 || n == 0x1680 || (0x2000 <= n <= 0x200A)
    || n == 0x2028 || n == 0x2029 || n == 0x202F || n == 0x205F || n == 0x3000 || n == 0xFEFF
  }

  /** Every character is whitespace (so `s.trim()` is the empty string). */
  predicate IsBlank(s: string) {
    forall i :: 0 <= i < |s| ==> IsSpace(s[i])
  }

  /** Drops the leading whitespace. */
  function TrimStart(s: string): (r: string)
    ensures |r| <= |s| && r == s[|s| - |r|..]
    ensures forall i :: 0 <= i < |s| - |r| ==> IsSpace(s[i])
    ensures r != [] ==> !IsSpace(r[0])
  {
    if s != [] && IsSpace(s[0]) then TrimStart(s[1..]) else s
  }

  /** Drops the trailing whitespace. */
  function TrimEnd(s: string): (r: string)
    ensures |r| <= |s| && r == s[..|r|]
    ensures forall i :: |r| <= i < |s| ==> IsSpace(s[i])
    ensures r != [] ==> !IsSpace(r[|r| - 1])
  {
    if s != [] && IsSpace(s[|s| - 1]) then TrimEnd(s[..|s| - 1]) else s
  }

  /**
   * `s.trim()`: empty exactly for blank input, otherwise it begins and ends
   * with a non-space; `TrimCutsOnlySpace` shows it is the input with only
   * the whitespace at both ends cut off.
   */
  function Trim(s: string): (r: string)
    ensures r == [] <==> IsBlank(s)
    ensures r != [] ==> !IsSpace(r[0]) && !IsSpace(r[|r| - 1])
    ensures |r| <= |s|
  {
    var t := TrimStart(s);
    var r := TrimEnd(t);
    TrimEnds(s, t, r);
    r
  }

  /**
   * `trim()` removes whitespace and nothing else: its result is a slice of
   * the input with a blank part before it and a blank part after it.
   */
  lemma TrimCutsOnlySpace(s: string)
    ensures var r := Trim(s);
      exists a :: 0 <= a && a + |r| <= |s| && r == s[a..a + |r|] && IsBlank(s[..a]) && IsBlank(s[a + |r|..])
  {
    var t := TrimStart(s);
    var r := TrimEnd(t);
    CutsOnlySpace(s, t, r);
    var a := |s| - |t|;
    assert Trim(s) == r;
    assert 0 <= a && a + |r| <= |s| && r == s[a..a + |r|] && IsBlank(s[..a]) && IsBlank(s[a + |r|..]);
  }

  /**
   * Cutting a whitespace prefix and then a whitespace suffix leaves nothing
   * exactly for blank input, and otherwise a text with non-space ends.
   */
  lemma TrimEnds(s: string, t: string, r: string)
    requires |t| <= |s| && t == s[|s| - |t|..] && forall i :: 0 <= i < |s| - |t| ==> IsSpace(s[i])
    requires t != [] ==> !IsSpace(t[0])
    requires |r| <= |t| && r == t[..|r|] && forall i :: |r| <= i < |t| ==> IsSpace(t[i])
    requires r != [] ==> !IsSpace(r[|r| - 1])
    ensures r == [] <==> IsBlank(s)
    ensures r != [] ==> !IsSpace(r[0]) && !IsSpace(r[|r| - 1])
    ensures |r| <= |s|
  {
    if r == [] {
      assert t == [];
    } else {
      assert r[0] == t[0] == s[|s| - |t|];
    }
  }

  /**
   * Cutting a whitespace prefix and then a whitespace suffix keeps a middle
   * slice, with a blank part on each side.
   */
  lemma CutsOnlySpace(s: string, t: string, r: string)
    requires |t| <= |s| && t == s[|s| - |t|..] && forall i :: 0 <= i < |s| - |t| ==> IsSpace(s[i])
    requires |r| <= |t| && r == t[..|r|] && forall i :: |r| <= i < |t| ==> IsSpace(t[i])
    ensures var a := |s| - |t|;
      && r == s[a..a + |r|] && IsBlank(s[..a]) && IsBlank(s[a + |r|..])
  {
    var a := |s| - |t|;
    LeadingBlank(s, a);
    assert s[a + |r|..] == t[|r|..];
    TrailingBlank(t, |r|);
  }

  /** A prefix of characters that are all whitespace is blank. */
  lemma LeadingBlank(s: string, a: nat)
    requires a <= |s| && forall i :: 0 <= i < a ==> IsSpace(s[i])
    ensures IsBlank(s[..a])
  {
    var head := s[..a];
    forall i | 0 <= i < |head| ensures IsSpace(head[i]) {
      assert head[i] == s[i];
    }
  }

  /** A suffix of characters that are all whitespace is blank. */
  lemma TrailingBlank(t: string, n: nat)
    requires n <= |t| && forall i :: n <= i < |t| ==> IsSpace(t[i])
    ensures IsBlank(t[n..])
  {
    var tail := t[n..];
    forall i | 0 <= i < |tail| ensures IsSpace(tail[i]) {
      assert tail[i] == t[n + i];
    }
  }

  /** The longest prefix of `t` without whitespace. */
  function WordPrefix(t: string): (w: string)
    ensures |w| <= |t| && w == t[..|w|]
    ensures forall i :: 0 <= i < |w| ==> !IsSpace(w[i])
    ensures |w| < |t| ==> IsSpace(t[|w|])
  {
    if t == [] || IsSpace(t[0]) then [] else [t[0]] + WordPrefix(t[1..])
  }

  /**
   * `t.split(/\s+/)`: the pieces between maximal whitespace runs; a leading or
   * trailing run yields an empty piece, and the empty string yields `[""]`.
   */
  function SplitWs(t: string): (r: seq<string>)
    ensures |r| >= 1
    decreases |t|
  {
    var w := WordPrefix(t);
    if |w| == |t| then [t]
    else
      var rest := t[|w|..];
      assert IsSpace(rest[0]);
      [w] + SplitWs(TrimStart(rest))
  }

  /** Splitting a trimmed, non-empty string never produces an empty piece. */
  lemma {:induction false} SplitTrimmedHasNoEmptyPiece(t: string)
    requires t != [] && !IsSpace(t[0]) && !IsSpace(t[|t| - 1])
    ensures forall k :: 0 <= k < |SplitWs(t)| ==> SplitWs(t)[k] != []
    decreases |t|
  {
    var w := WordPrefix(t);
    if |w| < |t| {
      var rest := t[|w|..];
      var u := TrimStart(rest);
      assert rest[|rest| - 1] == t[|t| - 1];
      assert u != [];
      assert u[|u| - 1] == rest[|rest| - 1];
      SplitTrimmedHasNoEmptyPiece(u);
      assert SplitWs(t) == [w] + SplitWs(u);
    }
  }

  /** The number of non-empty strings in `pieces` (JavaScript's `.filter(Boolean).length`). */
  function NonEmptyCount(pieces: seq<string>): (n: nat)
    ensures n <= |pieces|
  {
    if pieces == [] then 0
    else (if pieces[0] != [] then 1 else 0) + NonEmptyCount(pieces[1..])
  }

  lemma {:induction false} NonEmptyCountAll(pieces: seq<string>)
    requires forall k :: 0 <= k < |pieces| ==> pieces[k] != []
    ensures NonEmptyCount(pieces) == |pieces|
  {
    if pieces != [] { NonEmptyCountAll(pieces[1..]); }
  }

  /** The tokens the review text boxes look at: `text.trim().split(/\s+/)`. */
  function ReviewTokens(text: string): seq<string> {
    SplitWs(Trim(text))
  }

  const MaxReviewWords := 200

  /**
   * The review text boxes accept an edit when the token count is at most 200
   * (the extra `=== 1` test of the source is kept, although it is implied).
   */
  predicate ReviewEditAccepted(text: string) {
    var n := |ReviewTokens(text)|;
    n <= MaxReviewWords || n == 1
  }

  /** The "n/200 words" counter: `text.trim().split(/\s+/).filter(Boolean).length`. */
  function WordCounter(text: string): nat {
    NonEmptyCount(ReviewTokens(text))
  }

  /**
   * The counter and the acceptance test agree: an edit is accepted exactly
   * when the counter for the new text shows at most 200 words, and the
   * counter shows 0 exactly for blank text.
   */
  lemma ReviewLimitMatchesCounter(text: string)
    ensures ReviewEditAccepted(text) <==> WordCounter(text) <= MaxReviewWords
    ensures WordCounter(text) == 0 <==> IsBlank(text)
  {
    var t := Trim(text);
    if t == [] {
      assert WordPrefix(t) == [];
      assert ReviewTokens(text) == [[]];
    } else {
      SplitTrimmedHasNoEmptyPiece(t);
      NonEmptyCountAll(SplitWs(t));
    }
  }

  /** An accepted review never shows more than 200 words on its counter. */
  lemma AcceptedReviewFitsCounter(text: string)
    requires ReviewEditAccepted(text)
    ensures WordCounter(text) <= MaxReviewWords
  {
    ReviewLimitMatchesCounter(text);
  }

  predicate IsDigit(c: char) {
    '0' <= c <= '9'
  }

  predicate AllDigits(s: string) {
    forall i :: 0 <= i < |s| ==> IsDigit(s[i])
  }

  /** The year inputs keep a new value only when it is empty or matches `/^\d+$/`. */
  predicate YearInputAccepted(value: string) {
    value == [] || AllDigits(value)
  }

  /** `parseInt` of a string of ASCII digits (leading zeros allowed). */
  function DigitsValue(s: string): nat
    requires AllDigits(s)
  {
    if s == [] then 0
    else DigitsValue(s[..|s| - 1]) * 10 + (s[|s| - 1] as int - '0' as int)
  }

  function DigitChar(d: nat): (c: char)
    requires d < 10
    ensures IsDigit(c) && c as int - '0' as int == d
  {
    ('0' as int + d) as char
  }

  /** The decimal numeral of `n`, as a template string prints a non-negative integer. */
  function Decimal(n: nat): (s: string)
    ensures s != [] && AllDigits(s)
  {
    if n < 10 then [DigitChar(n)] else Decimal(n / 10) + [DigitChar(n % 10)]
  }

  /** `parseInt(String(n)) === n`. */
  lemma {:induction false} DigitsValueOfDecimal(n: nat)
    ensures DigitsValue(Decimal(n)) == n
  {
    var s := Decimal(n);
    if n >= 10 {
      DigitsValueOfDecimal(n / 10);
      assert s[..|s| - 1] == Decimal(n / 10);
    } else {
      assert s[..|s| - 1] == [];
    }
  }

  /** The length JavaScript reports: the number of UTF-16 code units. */
  function Utf16Length(s: string): (n: nat)
    ensures |s| <= n <= 2 * |s|
  {
    if s == [] then 0 else (if s[0] as int >= 0x10000 then 2 else 1) + Utf16Length(s[1..])
  }

  /** `c.charCodeAt(0)` for one code point: itself, or its high surrogate when astral. */
  function FirstCodeUnit(c: char): (u: nat)
    ensures u < 0x10000
    ensures c as int < 0x10000 ==> u == c as int
    ensures c as int >= 0x10000 ==> 0xD800 <= u <= 0xDBFF
  {
    if c as int < 0x10000 then c as int else 0xD800 + (c as int - 0x10000) / 0x400
  }
}
