/**
 Kopecks printed for people (notification/formatting.py) and rouble sums read from a fiscal QR code
 (receipt_ocr/qr_parser.py).
 */
module Money {
  import opened Wrappers
  import opened Text
  import Arith

  /** Two digits of a remainder below 100. */
  function Cents(rem: nat): (s: string)
    requires rem < 100
    ensures |s| == 2 && AllDigits(s) && Value(s) == rem
  {
    var s := [Digit(rem / 10), Digit(rem % 10)];
    assert s[..1] == [Digit(rem / 10)];
    assert Value(s[..1][..0]) == 0;
    assert Value(s[..1]) == rem / 10;
    s
  }

  function Magnitude(kop: nat): string {
    if kop % 100 == 0 then Decimal(kop / 100) else Decimal(kop / 100) + "," + Cents(kop % 100)
  }

  /** format_kopecks of an integer. */
  function FormatKopecks(kop: int): string {
    if kop < 0 then "-" + Magnitude(-kop) else Magnitude(kop)
  }

  function Plus(roubles: Option<int>, kopecks: Option<int>): Option<int> {
    if roubles.Some? && kopecks.Some? then Some(roubles.value * 100 + kopecks.value) else None
  }

  function SumOf(s: string): Option<int> {
    var dot := Find(s, '.');
    if dot >= 0 then Plus(PyInt(s[..dot]), PyInt((s[dot + 1..] + "00")[..2]))
    else Plus(PyInt(s), Some(0))
  }

  /** _parse_sum; None is the ValueError. */
  function ParseSum(text: string): Option<int> {
    SumOf(Replace(Strip(text), ',', '.'))
  }

  predicate Plain(s: string) {
    forall k :: 0 <= k < |s| ==> !IsSpace(s[k]) && s[k] != '.' && s[k] != ','
  }

  lemma DigitsArePlain(s: string)
    requires AllDigits(s)
    ensures Plain(s) && Plain("-" + s)
  {
  }

  lemma SumOfParts(head: string, tail: string)
    requires Plain(head)
    ensures SumOf(head + "." + tail) == Plus(PyInt(head), PyInt((tail + "00")[..2]))
  {
    var s := head + "." + tail;
    FindAfter(head, '.', tail);
    assert s[..|head|] == head && s[|head| + 1..] == tail;
  }

  /** What parse_sum makes of a head, a decimal mark and a tail. */
  lemma ParseSumParts(head: string, mark: char, tail: string)
    requires head != "" && Plain(head) && Plain(tail) && (mark == '.' || mark == ',')
    ensures ParseSum(head + [mark] + tail) == Plus(PyInt(head), PyInt((tail + "00")[..2]))
  {
    hide SumOf, PyInt, Strip, Replace;
    var text := head + [mark] + tail;
    assert text[|text| - 1] == if tail == "" then mark else tail[|tail| - 1];
    StripClean(text);
    assert Replace(text, ',', '.') == head + "." + tail;
    SumOfParts(head, tail);
  }

  lemma ParseSumWhole(head: string)
    requires head != "" && Plain(head)
    ensures ParseSum(head) == Plus(PyInt(head), Some(0))
  {
    StripClean(head);
    assert Replace(head, ',', '.') == head;
  }

  /** Printing an amount after a sign and reading it back. */
  lemma ReadBack(head: string, rem: nat, negative: bool, roubles: nat)
    requires head != "" && Plain(head) && rem < 100 && PyInt(head) == Some(Signed(negative, roubles))
    ensures ParseSum(if rem == 0 then head else head + "," + Cents(rem)) == Some(Signed(negative, roubles) * 100 + rem)
  {
    hide ParseSum, Plain, PyInt, Value;
    if rem == 0 {
      ParseSumWhole(head);
    } else {
      DigitsArePlain(Cents(rem));
      assert (Cents(rem) + "00")[..2] == Cents(rem);
      PyIntOfDigits(Cents(rem));
      ParseSumParts(head, ',', Cents(rem));
    }
  }

  lemma ReadBackPositive(kop: nat)
    ensures ParseSum(FormatKopecks(kop)) == Some(kop)
  {
    hide ParseSum, PyInt, Decimal, Cents, Value;
    DigitsArePlain(Decimal(kop / 100));
    PyIntOfDigits(Decimal(kop / 100));
    ReadBack(Decimal(kop / 100), kop % 100, false, kop / 100);
  }

  lemma ReadBackNegative(kop: nat)
    requires kop > 0
    ensures ParseSum(FormatKopecks(0 - kop)) == Some(Signed(true, kop / 100) * 100 + kop % 100)
  {
    hide ParseSum, PyInt, Decimal, Cents, Value;
    var digits := Decimal(kop / 100);
    DigitsArePlain(digits);
    PyIntOfMinusDigits(digits);
    ReadBack("-" + digits, kop % 100, true, kop / 100);
    assert "-" + (digits + "," + Cents(kop % 100)) == ("-" + digits) + "," + Cents(kop % 100);
  }

  /**
   Every non-negative amount survives printing and reading. A negative one does exactly when it has
   no kopecks: the parser adds the kopecks to the signed roubles, so -5,50 reads as -4,50.
   */
  lemma RoundTripIff(kop: int)
    ensures ParseSum(FormatKopecks(kop)) == Some(kop) <==> kop >= 0 || kop % 100 == 0
  {
    hide ParseSum, FormatKopecks;
    if kop >= 0 {
      ReadBackPositive(kop);
    } else {
      ReadBackNegative(-kop);
    }
  }

  /** A sign in front iff negative, one comma before the last two digits iff there are kopecks, else digits. */
  lemma PrintedShape(kop: int)
    ensures
      var s := FormatKopecks(kop);
      forall k :: 0 <= k < |s| ==>
        if kop < 0 && k == 0 then s[k] == '-'
        else if kop % 100 != 0 && k == |s| - 3 then s[k] == ','
        else IsDigit(s[k])
    ensures kop % 100 != 0 ==> |FormatKopecks(kop)| >= if kop < 0 then 5 else 4
  {
    hide Decimal, Cents, Value;
    if kop < 0 {
      PrintedMagnitude(-kop);
    } else {
      PrintedMagnitude(kop);
    }
  }

  lemma PrintedMagnitude(kop: nat)
    ensures
      var s := Magnitude(kop);
      forall k :: 0 <= k < |s| ==> if kop % 100 != 0 && k == |s| - 3 then s[k] == ',' else IsDigit(s[k])
    ensures |Magnitude(kop)| >= if kop % 100 != 0 then 4 else 1
  {
    hide Decimal, Cents, Value;
  }

  /** A sum written with a dot and two decimals reads as its kopecks. */
  lemma WrittenSumReads(kop: nat)
    ensures ParseSum(Decimal(kop / 100) + "." + Cents(kop % 100)) == Some(kop)
  {
    hide ParseSum, PyInt, Value, Decimal, Cents;
    var head, tail := Decimal(kop / 100), Cents(kop % 100);
    DigitsArePlain(head);
    DigitsArePlain(tail);
    assert (tail + "00")[..2] == tail;
    PyIntOfDigits(head);
    PyIntOfDigits(tail);
    ParseSumParts(head, '.', tail);
  }

  /** No two amounts print alike. */
  lemma FormatIsInjective(a: int, b: int)
    requires FormatKopecks(a) == FormatKopecks(b)
    ensures a == b
  {
    hide ParseSum, Decimal, Cents, Value;
    var s := FormatKopecks(a);
    assert s[0] == '-' <==> a < 0;
    assert s[0] == '-' <==> b < 0;
    if a < 0 {
      assert s[1..] == Magnitude(-a) && s[1..] == Magnitude(-b);
      ReadBackPositive(-a);
      ReadBackPositive(-b);
    } else {
      ReadBackPositive(a);
      ReadBackPositive(b);
    }
  }

  /** The first two decimals of a fraction, padded with zeros. */
  lemma FirstTwo(fraction: string)
    requires AllDigits(fraction)
    ensures AllDigits((fraction + "00")[..2])
    ensures Value((fraction + "00")[..2]) == 100 * Value(fraction) / Pow10(|fraction|)
  {
    hide Value;
    var two := (fraction + "00")[..2];
    if |fraction| < 2 {
      ShortFraction(fraction);
    } else {
      var rest := fraction[2..];
      assert two == fraction[..2] && fraction == two + rest;
      ValueConcat(two, rest);
      assert Pow10(|rest| + 2) == 10 * Pow10(|rest| + 1) == 100 * Pow10(|rest|);
      Arith.FloorOfHundred(Value(two), Value(rest), Pow10(|rest|));
    }
  }

  lemma ShortFraction(fraction: string)
    requires AllDigits(fraction) && |fraction| < 2
    ensures Value((fraction + "00")[..2]) == 100 * Value(fraction) / Pow10(|fraction|)
  {
    var two := (fraction + "00")[..2];
    assert Value("") == 0 && Pow10(0) == 1 && Pow10(1) == 10;
    if fraction == "" {
      assert two == "00" && two[..1] == "0" && "0"[..0] == "";
      assert Value("0") == 0;
    } else {
      assert two[..1] == fraction && two[1] == '0';
    }
  }

  /** On digits, a mark and a fraction of any length, parse_sum is the floor of 100 times the value. */
  lemma ParseSumIsFloor(whole: string, mark: char, fraction: string)
    requires whole != "" && AllDigits(whole) && AllDigits(fraction) && (mark == '.' || mark == ',')
    ensures AllDigits(whole + fraction)
    ensures ParseSum(whole + [mark] + fraction) == Some(100 * Value(whole + fraction) / Pow10(|fraction|))
  {
    hide ParseSum, PyInt, Value, Pow10;
    DigitsArePlain(whole);
    DigitsArePlain(fraction);
    ParseSumParts(whole, mark, fraction);
    PyIntOfDigits(whole);
    FirstTwo(fraction);
    PyIntOfDigits((fraction + "00")[..2]);
    ValueConcat(whole, fraction);
    FloorOfSum(Value(whole), Value(fraction), Pow10(|fraction|));
  }

  lemma FloorOfSum(w: nat, f: nat, p: nat)
    requires p > 0
    ensures 100 * (w * p + f) / p == w * 100 + 100 * f / p
  {
    assert 100 * (w * p + f) == (100 * w) * p + 100 * f;
    Arith.FloorShift(100 * w, 100 * f, p);
  }
}
