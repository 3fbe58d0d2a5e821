/**
 * The few pieces of Python (and PostgreSQL) value semantics that the bot's
 * state depends on: truthiness, `str()` of integers, `int()` of strings,
 * `str.strip`, `str.lower`, slicing with negative indices, and the text
 * input routine of PostgreSQL's `smallint`.
 */
module PyText {

  datatype Option<T> = None | Some(value: T)

  /** A scalar as the bot passes it around: Python `None`, an `int` or a `str`. */
  datatype Value = Null | Int(i: int) | Text(s: string)

  /** Python truthiness: `None`, `0` and `""` are falsy. */
  predicate Truthy(v: Value) {
    match v
    case Null => false
    case Int(i) => i != 0
    case Text(s) => s != ""
  }

  /** `Some(s)` for a message text, `None` for a message without text. */
  function TextValue(t: Option<string>): (v: Value)
    ensures v.Null? <==> t.None?
  {
    match t
    case None => Null
    case Some(s) => Text(s)
  }

  // ---------------------------------------------------------------- digits

  predicate IsDigit(c: char) {
    '0' <= c <= '9'
  }

  predicate AllDigits(s: string) {
    forall i :: 0 <= i < |s| ==> IsDigit(s[i])
  }

  function DigitValue(c: char): (d: nat)
    requires IsDigit(c)
    ensures d < 10
  {
    c as int - '0' as int
  }

  function DigitChar(d: nat): (c: char)
    requires d < 10
    ensures IsDigit(c) && DigitValue(c) == d
  {
    ('0' as int + d) as char
  }

  /** The number a string of decimal digits denotes (leading zeros allowed). */
  function DecimalValue(s: string): nat
    requires AllDigits(s)
  {
    if s == [] then 0 else 10 * DecimalValue(s[..|s| - 1]) + DigitValue(s[|s| - 1])
  }

  /** Python's `str(n)` for a non-negative int. */
  function NatToString(n: nat): (s: string)
    ensures |s| > 0 && AllDigits(s)
  {
    if n < 10 then [DigitChar(n)] else NatToString(n / 10) + [DigitChar(n % 10)]
  }

  /** Python's `str(i)` for any int. */
  function IntToString(i: int): (s: string)
    ensures |s| > 0
    ensures (s[0] == '-') == (i < 0)
  {
    if i < 0 then "-" + NatToString(-i) else NatToString(i)
  }

  lemma {:induction false} NatToStringRoundTrip(n: nat)
    ensures DecimalValue(NatToString(n)) == n
  {
    if n >= 10 {
      var s := NatToString(n);
      assert s[..|s| - 1] == NatToString(n / 10);
      assert s[|s| - 1] == DigitChar(n % 10);
      NatToStringRoundTrip(n / 10);
    }
  }

  /** Distinct numbers have distinct decimal forms. */
  lemma NatToStringInjective(a: nat, b: nat)
    ensures NatToString(a) == NatToString(b) <==> a == b
  {
    NatToStringRoundTrip(a);
    NatToStringRoundTrip(b);
  }

  /** Distinct ints have distinct `str()` forms, so `str(user_id)` keys never collide. */
  lemma IntToStringInjective(a: int, b: int)
    ensures IntToString(a) == IntToString(b) <==> a == b
  {
    if IntToString(a) == IntToString(b) {
      if a < 0 {
        assert b < 0;
        assert IntToString(a)[1..] == NatToString(-a);
        assert IntToString(b)[1..] == NatToString(-b);
        NatToStringInjective(-a, -b);
      } else {
        assert b >= 0;
        NatToStringInjective(a, b);
      }
    }
  }

  // ------------------------------------------------------------ whitespace

  /** Python's `str.isspace` for one character (the complete Unicode list). */
  predicate IsPySpace(c: char) {
    c in {' ', '\t', '\n', '\r', '\U{000B}', '\U{000C}', '\U{001C}', '\U{001D}', '\U{001E}',
          '\U{001F}', '\U{0085}', '\U{00A0}', '\U{1680}', '\U{2028}', '\U{2029}', '\U{202F}',
          '\U{205F}', '\U{3000}'}
    || '\U{2000}' <= c <= '\U{200A}'
  }

  /** C's `isspace` in the C locale, which PostgreSQL's integer input skips. */
  predicate IsCSpace(c: char) {
    c in {' ', '\t', '\n', '\r', '\U{000B}', '\U{000C}'}
  }

  /** Number of whitespace characters at the start of `s`. */
  function LeadingCount(s: string, ws: char -> bool): (k: nat)
    ensures k <= |s|
    ensures forall i :: 0 <= i < k ==> ws(s[i])
    ensures k < |s| ==> !ws(s[k])
  {
    if s == [] || !ws(s[0]) then 0 else 1 + LeadingCount(s[1..], ws)
  }

  /** Number of whitespace characters at the end of `s`. */
  function TrailingCount(s: string, ws: char -> bool): (k: nat)
    ensures k <= |s|
    ensures forall i :: |s| - k <= i < |s| ==> ws(s[i])
    ensures k < |s| ==> !ws(s[|s| - 1 - k])
  {
    if s == [] || !ws(s[|s| - 1]) then 0 else 1 + TrailingCount(s[..|s| - 1], ws)
  }

  /** `s` without its leading and trailing whitespace. */
  function StripBy(s: string, ws: char -> bool): (r: string)
    ensures |r| <= |s|
    ensures r == [] || (!ws(r[0]) && !ws(r[|r| - 1]))
    ensures |s| > 0 && !ws(s[0]) && !ws(s[|s| - 1]) ==> r == s
    ensures r == [] <==> forall i :: 0 <= i < |s| ==> ws(s[i])
  {
    var k := LeadingCount(s, ws);
    var t := TrailingCount(s[k..], ws);
    StripEnds(s, ws, k, t);
    StripUnchanged(s, ws, k, t);
    StripEmpty(s, ws, k, t);
    s[k..][..|s| - k - t]
  }

  /** The stripped text starts and ends with a non-space. */
  lemma StripEnds(s: string, ws: char -> bool, k: nat, t: nat)
    requires k == LeadingCount(s, ws) && t == TrailingCount(s[k..], ws)
    ensures var r := s[k..][..|s| - k - t];
      r == [] || (!ws(r[0]) && !ws(r[|r| - 1]))
  {
    var rest := s[k..];
    var r := rest[..|rest| - t];
    if r != [] {
      assert r[0] == s[k];
      assert r[|r| - 1] == rest[|rest| - 1 - t];
    }
  }

  /** A text already without outer spaces is left as it is. */
  lemma StripUnchanged(s: string, ws: char -> bool, k: nat, t: nat)
    requires k == LeadingCount(s, ws) && t == TrailingCount(s[k..], ws)
    ensures |s| > 0 && !ws(s[0]) && !ws(s[|s| - 1]) ==> s[k..][..|s| - k - t] == s
  {
    if |s| > 0 && !ws(s[0]) && !ws(s[|s| - 1]) {
      assert k == 0;
      assert s[k..] == s;
      assert t == 0;
    }
  }

  /** Only an all-space text strips to nothing. */
  lemma StripEmpty(s: string, ws: char -> bool, k: nat, t: nat)
    requires k == LeadingCount(s, ws) && t == TrailingCount(s[k..], ws)
    ensures s[k..][..|s| - k - t] == [] <==> forall i :: 0 <= i < |s| ==> ws(s[i])
  {
    if forall i :: 0 <= i < |s| ==> ws(s[i]) {
      assert k == |s|;
    }
  }

  /** Python's `str.strip()`. */
  function PyStrip(s: string): (r: string)
    ensures |r| <= |s|
    ensures r == [] || (!IsPySpace(r[0]) && !IsPySpace(r[|r| - 1]))
    ensures |s| > 0 && !IsPySpace(s[0]) && !IsPySpace(s[|s| - 1]) ==> r == s
  {
    StripBy(s, IsPySpace)
  }

  // ------------------------------------------------------- integer parsing

  /** An optional sign followed by at least one decimal digit, nothing else. */
  function SignedDecimal(t: string): (r: Option<int>)
    ensures AllDigits(t) && t != [] ==> r == Some(DecimalValue(t))
    ensures t == [] ==> r.None?
  {
    if |t| >= 2 && (t[0] == '+' || t[0] == '-') && AllDigits(t[1..]) then
      Some(if t[0] == '-' then 0 - DecimalValue(t[1..]) else DecimalValue(t[1..]))
    else if t != [] && AllDigits(t) then
      Some(DecimalValue(t))
    else
      None
  }

  /**
   * Python's `int(s)` for a `str`, `None` standing for the ValueError it
   * raises: surrounding whitespace, an optional sign, ASCII decimal digits.
   */
  function PyInt(s: string): Option<int> {
    SignedDecimal(PyStrip(s))
  }

  const SmallintMin: int := -32768
  const SmallintMax: int := 32767

  /**
   * PostgreSQL's text input for `smallint` (a quoted parameter compared with
   * a `smallint` column): `None` stands for the error it raises on a string
   * that is not a decimal number or is out of range.
   */
  function PgSmallint(s: string): (r: Option<int>)
    ensures r.Some? ==> SmallintMin <= r.value <= SmallintMax
  {
    match SignedDecimal(StripBy(s, IsCSpace))
    case Some(n) => if SmallintMin <= n <= SmallintMax then Some(n) else None
    case None => None
  }

  /** `int()` reads back what `str()` writes. */
  lemma PyIntOfNatToString(n: nat)
    ensures PyInt(NatToString(n)) == Some(n)
  {
    var s := NatToString(n);
    assert !IsPySpace(s[0]) && !IsPySpace(s[|s| - 1]);
    NatToStringRoundTrip(n);
  }

  /** A memory id written by `str()` is read back by PostgreSQL as the same id. */
  lemma PgSmallintOfNatToString(n: nat)
    requires n <= SmallintMax
    ensures PgSmallint(NatToString(n)) == Some(n)
  {
    var s := NatToString(n);
    assert !IsCSpace(s[0]) && !IsCSpace(s[|s| - 1]);
    assert StripBy(s, IsCSpace) == s;
    NatToStringRoundTrip(n);
  }

  /** Two ASCII digits parse as the two-digit number they spell. */
  lemma PyIntTwoDigits(s: string)
    requires |s| == 2 && IsDigit(s[0]) && IsDigit(s[1])
    ensures PyInt(s) == Some(10 * DigitValue(s[0]) + DigitValue(s[1]))
  {
    assert PyStrip(s) == s;
    assert s[..1] == [s[0]];
    assert DecimalValue(s[..1]) == DigitValue(s[0]);
    assert DecimalValue(s) == 10 * DigitValue(s[0]) + DigitValue(s[1]);
  }

  // ------------------------------------------------------- slicing, search

  /** Python's clamping of a slice bound `i` against a length `n`. */
  function PyIndex(i: int, n: nat): (k: nat)
    ensures k <= n
    ensures 0 <= i <= n ==> k == i
    ensures i < 0 && 0 <= n + i ==> k == n + i
  {
    if i < 0 then (if i + n < 0 then 0 else i + n) else (if i > n then n else i)
  }

  /** Python's `s[start:stop]` (step 1), `stop == None` meaning to the end. */
  function PySlice(s: string, start: int, stop: Option<int>): (r: string)
    ensures |r| <= |s|
  {
    var a := PyIndex(start, |s|);
    var b := match stop case None => |s| case Some(e) => PyIndex(e, |s|);
    if a < b then s[a..b] else []
  }

  predicate StartsWith(s: string, p: string) {
    |p| <= |s| && s[..|p|] == p
  }

  /** Index of the first occurrence of `c` in `s`. */
  function FirstIndexOf(s: string, c: char): (k: nat)
    requires c in s
    ensures k < |s| && s[k] == c
    ensures forall i :: 0 <= i < k ==> s[i] != c
  {
    if s[0] == c then 0 else 1 + FirstIndexOf(s[1..], c)
  }

  /** Python's `s.split(c, 1)[1]`: the text after the first `c`. */
  function AfterFirst(s: string, c: char): string
    requires c in s
  {
    s[FirstIndexOf(s, c) + 1..]
  }

  // ---------------------------------------------------------- lower-casing

  /**
   * Python's `str.lower` on one character, for the Latin and Cyrillic
   * capitals (the alphabets the bot's keywords use); other characters are
   * returned unchanged.
   */
  function LowerChar(c: char): char {
    if 'A' <= c <= 'Z' then (c as int + 32) as char
    else if '\U{0410}' <= c <= '\U{042F}' then (c as int + 32) as char
    else if '\U{0400}' <= c <= '\U{040F}' then (c as int + 80) as char
    else c
  }

  function PyLower(s: string): (r: string)
    ensures |r| == |s|
    ensures forall i :: 0 <= i < |s| ==> r[i] == LowerChar(s[i])
  {
    if s == [] then [] else [LowerChar(s[0])] + PyLower(s[1..])
  }

  /** The only characters that lower-case to `c` for the given Cyrillic letters. */
  lemma LowerCharPreimage(c: char)
    ensures LowerChar(c) == 'в' <==> c == 'в' || c == 'В'
    ensures LowerChar(c) == 'с' <==> c == 'с' || c == 'С'
    ensures LowerChar(c) == 'е' <==> c == 'е' || c == 'Е'
    ensures LowerChar(c) == 'ё' <==> c == 'ё' || c == 'Ё'
  {
  }

  /** The spellings of the "delete everything" keyword: в/В, с/С, then е/Е/ё/Ё. */
  predicate IsAllWord(s: string) {
    |s| == 3 && (s[0] == 'в' || s[0] == 'В') && (s[1] == 'с' || s[1] == 'С')
    && (s[2] == 'е' || s[2] == 'Е' || s[2] == 'ё' || s[2] == 'Ё')
  }

  lemma AllKeywordOfThree(s: string)
    requires |s| == 3
    ensures (PyLower(s) == "все" || PyLower(s) == "всё") <==> IsAllWord(s)
  {
    LowerCharPreimage(s[0]);
    LowerCharPreimage(s[1]);
    LowerCharPreimage(s[2]);
    assert PyLower(s) == [LowerChar(s[0]), LowerChar(s[1]), LowerChar(s[2])];
  }

  /** `s.lower() in ('все', 'всё')` holds exactly for the spellings of `IsAllWord`. */
  lemma AllKeywordIff(s: string)
    ensures PyLower(s) in ["все", "всё"] <==> IsAllWord(s)
  {
    if |s| == 3 {
      AllKeywordOfThree(s);
    }
  }
}
