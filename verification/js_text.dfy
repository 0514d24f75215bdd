/**
 * The JavaScript string built-ins the quote logic relies on: `trim`, `toUpperCase`,
 * `toLowerCase`, `includes`, `split(sep)[0]`, `Number.prototype.toString` on whole numbers and
 * `parseInt` without a radix.
 */
module JsText {
  import opened Wrappers

  /** The characters `trim` and `parseInt` skip: ECMAScript WhiteSpace and LineTerminator. */
  predicate IsSpace(c: char) {
    || c == ' ' || c == '\t' || c == '\n' || c == '\r' || c == '\U{B}' || c == '\U{C}'
    || c == '\U{A0}' || c == '\U{1680}' || ('\U{2000}' <= c <= '\U{200A}')
    || c == '\U{2028}' || c == '\U{2029}' || c == '\U{202F}' || c == '\U{205F}'
    || c == '\U{3000}' || c == '\U{FEFF}'
  }

  /** `s` with its leading white space removed. */
  function TrimStart(s: string): string {
    if s != [] && IsSpace(s[0]) then TrimStart(s[1..]) else s
  }

  /** `TrimStart` keeps a suffix, drops only white space, and leaves no white space in front. */
  lemma {:induction false} TrimStartDropsLeadingSpace(s: string)
    ensures var r := TrimStart(s);
            && |r| <= |s| && r == s[|s| - |r|..]
            && (forall i :: 0 <= i < |s| - |r| ==> IsSpace(s[i]))
            && (r != [] ==> !IsSpace(r[0]))
  {
    if s != [] && IsSpace(s[0]) {
      var t := s[1..];
      TrimStartDropsLeadingSpace(t);
      var r := TrimStart(t);
      assert TrimStart(s) == r;
      assert r == s[|s| - |r|..] by {
        assert t[|t| - |r|..] == s[|s| - |r|..];
      }
      forall i | 0 <= i < |s| - |r|
        ensures IsSpace(s[i])
      {
        if i > 0 {
          assert s[i] == t[i - 1];
        }
      }
    }
  }

  /** `!s.trim()`: the text is empty once white space is removed. */
  predicate IsBlank(s: string) {
    TrimStart(s) == []
  }

  /** Text is blank exactly when every character is white space. */
  lemma BlankIffAllSpace(s: string)
    ensures IsBlank(s) <==> forall i :: 0 <= i < |s| ==> IsSpace(s[i])
  {
    TrimStartDropsLeadingSpace(s);
  }

  function UpperChar(c: char): char {
    if 'a' <= c <= 'z' then (c as int - 'a' as int + 'A' as int) as char else c
  }

  function LowerChar(c: char): char {
    if 'A' <= c <= 'Z' then (c as int - 'A' as int + 'a' as int) as char else c
  }

  /** `s.toUpperCase()` on the ASCII letters. */
  function ToUpper(s: string): (r: string)
    ensures |r| == |s|
    ensures forall i :: 0 <= i < |s| ==> r[i] == UpperChar(s[i])
  {
    if s == [] then [] else [UpperChar(s[0])] + ToUpper(s[1..])
  }

  /** `s.toLowerCase()` on the ASCII letters. */
  function ToLower(s: string): (r: string)
    ensures |r| == |s|
    ensures forall i :: 0 <= i < |s| ==> r[i] == LowerChar(s[i])
  {
    if s == [] then [] else [LowerChar(s[0])] + ToLower(s[1..])
  }

  /** Upper-casing text that is already upper case changes nothing. */
  lemma {:induction false} ToUpperIdempotent(s: string)
    ensures ToUpper(ToUpper(s)) == ToUpper(s)
  {
    if s != [] {
      ToUpperIdempotent(s[1..]);
      assert ToUpper(s)[1..] == ToUpper(s[1..]);
    }
  }

  /** `s.includes(t)` */
  predicate HasSubstring(s: string, t: string)
    decreases |s|
  {
    |t| <= |s| && (s[..|t|] == t || (s != [] && HasSubstring(s[1..], t)))
  }

  /** Text that does not contain the first character of `t` does not contain `t`. */
  lemma {:induction false} MissingFirstCharNoSubstring(s: string, t: string)
    requires t != [] && t[0] !in s
    ensures !HasSubstring(s, t)
    decreases |s|
  {
    if |t| <= |s| {
      assert s[0] != t[0];
      assert s[..|t|] != t;
      if s != [] {
        assert forall c :: c in s[1..] ==> c in s;
        MissingFirstCharNoSubstring(s[1..], t);
      }
    }
  }

  /** `s.split(sep)[0]`: the text before the first `sep`, or all of `s` when there is none. */
  function BeforeFirst(s: string, sep: char): (r: string)
    ensures |r| <= |s| && r == s[..|r|]
    ensures sep !in r
    ensures |r| < |s| ==> s[|r|] == sep
  {
    if s == [] || s[0] == sep then [] else [s[0]] + BeforeFirst(s[1..], sep)
  }

  /** Without a separator, splitting yields the whole text. */
  lemma BeforeFirstWithoutSep(s: string, sep: char)
    requires sep !in s
    ensures BeforeFirst(s, sep) == s
  {
  }

  predicate IsDecimalDigit(c: char) {
    '0' <= c <= '9'
  }

  function DigitChar(d: int): (c: char)
    requires 0 <= d < 10
    ensures IsDecimalDigit(c)
  {
    ('0' as int + d) as char
  }

  /** `n.toString()` for a non-negative whole number: decimal digits, no leading zero. */
  function NatToString(n: nat): (r: string)
    ensures |r| >= 1
    ensures forall i :: 0 <= i < |r| ==> IsDecimalDigit(r[i])
    ensures |r| >= 2 ==> r[0] != '0'
    ensures n >= 10 <==> |r| >= 2
  {
    if n < 10 then [DigitChar(n)] else NatToString(n / 10) + [DigitChar(n % 10)]
  }

  /** The value of one digit in the given radix (10 or 16), if `c` is one. */
  function DigitOf(c: char, radix: int): (d: Option<int>)
    ensures d.Some? ==> 0 <= d.value < radix
  {
    var v :=
      if '0' <= c <= '9' then c as int - '0' as int
      else if 'a' <= c <= 'z' then c as int - 'a' as int + 10
      else if 'A' <= c <= 'Z' then c as int - 'A' as int + 10
      else radix;
    if v < radix then Some(v) else None
  }

  /** The length of the longest prefix of `s` made of digits of the radix. */
  function DigitRun(s: string, radix: int): (n: nat)
    ensures n <= |s|
  {
    if s == [] || DigitOf(s[0], radix).None? then 0 else 1 + DigitRun(s[1..], radix)
  }

  /** `DigitRun` measures the longest prefix of digits: digits up to it, none at it. */
  lemma {:induction false} DigitRunIsLongestPrefix(s: string, radix: int)
    ensures var n := DigitRun(s, radix);
            && (forall i :: 0 <= i < n ==> DigitOf(s[i], radix).Some?)
            && (n < |s| ==> DigitOf(s[n], radix).None?)
  {
    if s != [] && DigitOf(s[0], radix).Some? {
      DigitRunIsLongestPrefix(s[1..], radix);
    }
  }

  /** The number a run of digits denotes, most significant digit first (a non-digit counts 0). */
  function DigitsValue(s: string, radix: nat): nat {
    if s == [] then 0
    else
      var d := DigitOf(s[|s| - 1], radix);
      DigitsValue(s[..|s| - 1], radix) * radix + (if d.Some? then d.value else 0)
  }

  /**
   * `parseInt(s)`: skip leading white space, take an optional sign and an optional `0x`/`0X`
   * prefix (which switches to radix 16), then the longest run of digits. No digits: NaN (None).
   */
  function ParseInt(s: string): Option<int> {
    var t := TrimStart(s);
    var negative := t != [] && t[0] == '-';
    var u := if t != [] && (t[0] == '-' || t[0] == '+') then t[1..] else t;
    var hex := |u| >= 2 && u[0] == '0' && (u[1] == 'x' || u[1] == 'X');
    var radix := if hex then 16 else 10;
    var w := if hex then u[2..] else u;
    var k := DigitRun(w, radix);
    if k == 0 then None
    else
      var v: int := DigitsValue(w[..k], radix);
      Some(if negative then -v else v)
  }

  lemma {:induction false} DigitsValueOfNatToString(n: nat)
    ensures DigitsValue(NatToString(n), 10) == n
  {
    var s := NatToString(n);
    if n >= 10 {
      DigitsValueOfNatToString(n / 10);
      assert s[..|s| - 1] == NatToString(n / 10);
    }
  }

  /** Text that starts with something other than white space is its own `trimStart`. */
  lemma TrimStartOfNonSpace(s: string)
    requires s != [] && !IsSpace(s[0])
    ensures TrimStart(s) == s
  {
  }

  /** A run of decimal digits is read to its end. */
  lemma DigitRunOfDigits(s: string)
    requires forall i :: 0 <= i < |s| ==> IsDecimalDigit(s[i])
    ensures DigitRun(s, 10) == |s|
  {
    DigitRunIsLongestPrefix(s, 10);
  }

  /** Parsing the decimal text of a whole number gives the number back. */
  lemma ParseIntOfNatToString(n: nat)
    ensures ParseInt(NatToString(n)) == Some(n)
  {
    var s := NatToString(n);
    assert IsDecimalDigit(s[0]);
    TrimStartOfNonSpace(s);
    DigitRunOfDigits(s);
    assert s[..|s|] == s;
    DigitsValueOfNatToString(n);
  }

  /** Text without any digit parses to NaN. */
  lemma ParseIntWithoutDigits(s: string)
    requires forall i :: 0 <= i < |s| ==> !IsDecimalDigit(s[i])
    ensures ParseInt(s) == None
  {
    TrimStartDropsLeadingSpace(s);
    var t := TrimStart(s);
    forall i | 0 <= i < |t|
      ensures !IsDecimalDigit(t[i])
    {
      assert t[i] == s[|s| - |t| + i];
    }
    var u := if t != [] && (t[0] == '-' || t[0] == '+') then t[1..] else t;
    assert u != [] ==> !IsDecimalDigit(u[0]) && DigitOf(u[0], 10).None?;
  }
}
