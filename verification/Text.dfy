/** Decimal digits and the few Python string operations the code relies on, over ASCII. */
module Text {
  import opened Wrappers
  import Arith

  function Digit(d: nat): (c: char)
    requires d < 10
    ensures IsDigit(c) && DigitValue(c) == d
  {
    ('0' as int + d) as char
  }

  predicate IsDigit(c: char) {
    '0' <= c <= '9'
  }

  function DigitValue(c: char): nat
    requires IsDigit(c)
  {
    c as int - '0' as int
  }

  predicate AllDigits(s: string) {
    forall k :: 0 <= k < |s| ==> IsDigit(s[k])
  }

  function Value(s: string): nat
    requires AllDigits(s)
  {
    if s == "" then 0 else 10 * Value(s[..|s| - 1]) + DigitValue(s[|s| - 1])
  }

  /** str(n) for n >= 0. */
  function Decimal(n: nat): (s: string)
    ensures s != "" && AllDigits(s) && Value(s) == n
  {
    if n < 10 then [Digit(n)]
    else
      var front := Decimal(n / 10);
      var s := front + [Digit(n % 10)];
      assert s[..|s| - 1] == front;
      s
  }

  function Pow10(k: nat): (p: nat)
    ensures p > 0
  {
    if k == 0 then 1 else 10 * Pow10(k - 1)
  }

  lemma {:induction false} ValueConcat(a: string, b: string)
    requires AllDigits(a) && AllDigits(b)
    ensures AllDigits(a + b) && Value(a + b) == Value(a) * Pow10(|b|) + Value(b)
    ensures Value(b) < Pow10(|b|)
  {
    hide Value, Pow10;
    ValueStep(b);
    if b == "" {
      assert a + b == a;
    } else {
      var front := b[..|b| - 1];
      ValueConcat(a, front);
      ValueStep(a + b);
      assert (a + b)[..|a + b| - 1] == a + front && (a + b)[|a + b| - 1] == b[|b| - 1];
      Arith.HornerStep(Value(a), Pow10(|front|), Value(front), DigitValue(b[|b| - 1]));
    }
  }

  lemma ValueStep(s: string)
    requires AllDigits(s)
    ensures s == "" ==> Value(s) == 0 && Pow10(|s|) == 1
    ensures s != "" ==>
      var front := s[..|s| - 1];
      Value(s) == 10 * Value(front) + DigitValue(s[|s| - 1]) && Pow10(|s|) == 10 * Pow10(|front|)
  {
  }

  // ---------------------------------------------------------------- strip, replace, int

  /** The ASCII characters that str.strip and int take for white space. */
  predicate IsSpace(c: char) {
    c == ' ' || '\t' <= c <= '\r' || 0x1c <= c as int <= 0x1f
  }

  function LeftStrip(s: string): string {
    if s != "" && IsSpace(s[0]) then LeftStrip(s[1..]) else s
  }

  function RightStrip(s: string): string {
    if s != "" && IsSpace(s[|s| - 1]) then RightStrip(s[..|s| - 1]) else s
  }

  function Strip(s: string): string {
    RightStrip(LeftStrip(s))
  }

  function Replace(s: string, from: char, to: char): (r: string)
    ensures |r| == |s| && forall k :: 0 <= k < |s| ==> r[k] == if s[k] == from then to else s[k]
  {
    if s == "" then "" else [if s[0] == from then to else s[0]] + Replace(s[1..], from, to)
  }

  /** The first index of c in s, or -1. */
  function Find(s: string, c: char): (i: int)
    ensures -1 <= i < |s|
    ensures i == -1 <==> c !in s
    ensures i >= 0 ==> s[i] == c && c !in s[..i]
  {
    if s == "" then -1
    else if s[0] == c then 0
    else
      var i := Find(s[1..], c);
      if i == -1 then -1
      else
        assert s[..i + 1] == [s[0]] + s[1..][..i];
        i + 1
  }

  lemma {:induction false} FindAfter(a: string, c: char, b: string)
    requires c !in a
    ensures Find(a + [c] + b, c) == |a|
  {
    if a != "" {
      assert (a + [c] + b)[1..] == a[1..] + [c] + b;
      FindAfter(a[1..], c, b);
    }
  }

  lemma StripClean(s: string)
    requires s != "" ==> !IsSpace(s[0]) && !IsSpace(s[|s| - 1])
    ensures Strip(s) == s
  {
  }

  function Signed(negative: bool, n: nat): int {
    var m: int := n;
    if negative then -m else m
  }

  /** One optional sign, then at least one digit. */
  function IntOf(s: string): Option<int> {
    if s == "" then None
    else
      var digits := if s[0] == '-' || s[0] == '+' then s[1..] else s;
      if digits == "" || !AllDigits(digits) then None else Some(Signed(s[0] == '-', Value(digits)))
  }

  /** int(s) for ASCII text: surrounding whitespace and one sign allowed, digits required. */
  function PyInt(text: string): Option<int> {
    IntOf(Strip(text))
  }

  lemma PyIntOfDigits(digits: string)
    requires digits != "" && AllDigits(digits)
    ensures PyInt(digits) == Some(Signed(false, Value(digits)))
  {
    StripClean(digits);
  }

  lemma PyIntOfMinusDigits(digits: string)
    requires digits != "" && AllDigits(digits)
    ensures PyInt("-" + digits) == Some(Signed(true, Value(digits)))
  {
    StripClean("-" + digits);
    assert ("-" + digits)[1..] == digits;
  }

  lemma PyIntOfPlusDigits(digits: string)
    requires digits != "" && AllDigits(digits)
    ensures PyInt("+" + digits) == Some(Value(digits))
  {
    StripClean("+" + digits);
    assert ("+" + digits)[1..] == digits;
  }

  /** Nothing else is a number. */
  lemma PyIntOnlyOfDigits(text: string)
    requires PyInt(text).Some?
    ensures
      var s, v := Strip(text), PyInt(text).value;
      || (s != "" && AllDigits(s) && v == Value(s))
      || (|s| > 1 && s[0] == '+' && AllDigits(s[1..]) && v == Value(s[1..]))
      || (|s| > 1 && s[0] == '-' && AllDigits(s[1..]) && v == -(Value(s[1..]) as int))
  {
  }

  /** Blanks, tabs and line ends around a text are stripped, and nothing inside it. */
  lemma StripsBlanks(left: string, s: string, right: string)
    requires s != "" && !IsSpace(s[0]) && !IsSpace(s[|s| - 1])
    requires forall k :: 0 <= k < |left| ==> left[k] in " \t\n\r"
    requires forall k :: 0 <= k < |right| ==> right[k] in " \t\n\r"
    ensures Strip(left + s + right) == s
  {
    LeftBlanks(left, s + right);
    assert left + s + right == left + (s + right);
    RightBlanks(s, right);
  }

  lemma {:induction false} LeftBlanks(left: string, s: string)
    requires s != "" && !IsSpace(s[0]) && forall k :: 0 <= k < |left| ==> left[k] in " \t\n\r"
    ensures LeftStrip(left + s) == s
  {
    if left == "" {
      assert left + s == s;
    } else {
      assert left[0] in " \t\n\r" && (left + s)[1..] == left[1..] + s;
      LeftBlanks(left[1..], s);
    }
  }

  lemma {:induction false} RightBlanks(s: string, right: string)
    requires s != "" && !IsSpace(s[|s| - 1]) && forall k :: 0 <= k < |right| ==> right[k] in " \t\n\r"
    ensures RightStrip(s + right) == s
  {
    if right == "" {
      assert s + right == s;
    } else {
      var n := |right| - 1;
      assert right[n] in " \t\n\r" && (s + right)[..|s + right| - 1] == s + right[..n];
      RightBlanks(s, right[..n]);
    }
  }
}
