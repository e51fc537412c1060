/**
 Reading a fiscal QR string (receipt_ocr/qr_parser.py): the URL prefix, the query string, the
 required keys and the sum.
 */
module QrCodes {
  import opened Wrappers
  import opened Text
  import Money

  /**
   What a date text comes to: a UTC instant, a ValueError when no format fits, or an OverflowError when
   one fits but the shift from Moscow time to UTC leaves the calendar, as for the first day of year 1.
   */
  datatype Instant = At(seconds: int) | NoFormat | OutOfCalendar

  /** Library behaviour the parser calls: percent-decoding, and strptime with the shift to UTC. */
  datatype Library = Library(unquote: string -> string, instant: string -> Instant)

  datatype ParsedQr = ParsedQr(
    fn: string, fd: string, fp: string, totalSumKop: int, purchaseDate: int, operationType: int)

  /** All but the last are QRParseError; DateOverflow is an exception that the parser's callers do not expect. */
  datatype QrError = NoQueryString | MissingKeys | BadSum | BadDate | BadOperation | DateOverflow

  type Pairs = seq<(string, string)>

  const HTTPS := "https://"

  // ---------------------------------------------------------------- the query string

  /** str.split on one character: always at least one piece. */
  function Split(s: string, sep: char): (pieces: seq<string>)
    ensures pieces != []
    decreases |s|
  {
    var i := Find(s, sep);
    if i == -1 then [s] else [s[..i]] + Split(s[i + 1..], sep)
  }

  function Decode(s: string, lib: Library): string {
    lib.unquote(Replace(s, '+', ' '))
  }

  /** One name=value piece; pieces without '=' or with an empty value are dropped. */
  function PairOf(piece: string, lib: Library): Pairs {
    var i := Find(piece, '=');
    if i == -1 || piece[i + 1..] == "" then []
    else [(Decode(piece[..i], lib), Decode(piece[i + 1..], lib))]
  }

  function PairsOf(pieces: seq<string>, lib: Library): Pairs {
    if pieces == [] then [] else PairOf(pieces[0], lib) + PairsOf(pieces[1..], lib)
  }

  /** parse_qs(raw, keep_blank_values=False) as a list of pairs in order. */
  function ParseQs(raw: string, lib: Library): Pairs {
    PairsOf(Split(raw, '&'), lib)
  }

  /** The first value given for a key. */
  function First(pairs: Pairs, key: string): (r: Option<string>)
    ensures r.None? <==> forall k :: 0 <= k < |pairs| ==> pairs[k].0 != key
    ensures r.Some? ==>
      exists k :: 0 <= k < |pairs| && pairs[k] == (key, r.value) && forall j :: 0 <= j < k ==> pairs[j].0 != key
  {
    if pairs == [] then None else if pairs[0].0 == key then Some(pairs[0].1) else First(pairs[1..], key)
  }

  // ---------------------------------------------------------------- the parser

  /** Everything after the query string has been taken apart. */
  function FromPairs(pairs: Pairs, lib: Library): Result<ParsedQr, QrError> {
    var fn, fd, fp := First(pairs, "fn"), First(pairs, "i"), First(pairs, "fp");
    var s, t := First(pairs, "s"), First(pairs, "t");
    if fn.None? || fd.None? || fp.None? || s.None? || t.None? then Failure(MissingKeys)
    else
      var sum := Money.ParseSum(s.value);
      var date := lib.instant(Strip(t.value));
      var n := First(pairs, "n");
      var operation := if n.None? then Some(1) else PyInt(n.value);
      if sum.None? then Failure(BadSum)
      else if date.NoFormat? then Failure(BadDate)
      else if date.OutOfCalendar? then Failure(DateOverflow)
      else if operation.None? then Failure(BadOperation)
      else Success(ParsedQr(fn.value, fd.value, fp.value, sum.value, date.seconds, operation.value))
  }

  /** The query string inside a scanned text: the text itself, or what follows '?' of a full URL. */
  function QueryOf(text: string): Option<string> {
    var raw := Strip(text);
    if HTTPS <= raw then
      var mark := Find(raw, '?');
      if mark == -1 then None else Some(raw[mark + 1..])
    else Some(raw)
  }

  function ParseQr(text: string, lib: Library): Result<ParsedQr, QrError> {
    var query := QueryOf(text);
    if query.None? then Failure(NoQueryString) else FromPairs(ParseQs(query.value, lib), lib)
  }

  // ---------------------------------------------------------------- writing a query string

  predicate CleanText(s: string, lib: Library) {
    && lib.unquote(s) == s
    && forall k :: 0 <= k < |s| ==> s[k] != '&' && s[k] != '=' && s[k] != '+'
  }

  predicate Clean(pairs: Pairs, lib: Library) {
    forall k :: 0 <= k < |pairs| ==>
      CleanText(pairs[k].0, lib) && CleanText(pairs[k].1, lib) && pairs[k].1 != ""
  }

  function Piece(pair: (string, string)): string {
    pair.0 + "=" + pair.1
  }

  function Join(pairs: Pairs): string {
    if pairs == [] then ""
    else if |pairs| == 1 then Piece(pairs[0])
    else Piece(pairs[0]) + "&" + Join(pairs[1..])
  }

  lemma DecodeClean(s: string, lib: Library)
    requires CleanText(s, lib)
    ensures Decode(s, lib) == s
  {
    assert Replace(s, '+', ' ') == s;
  }

  lemma PairOfPiece(pair: (string, string), lib: Library)
    requires CleanText(pair.0, lib) && CleanText(pair.1, lib) && pair.1 != ""
    ensures PairOf(Piece(pair), lib) == [pair]
    ensures '&' !in Piece(pair)
  {
    hide Find, Decode;
    var piece := Piece(pair);
    FindAfter(pair.0, '=', pair.1);
    assert piece[..|pair.0|] == pair.0 && piece[|pair.0| + 1..] == pair.1;
    DecodeClean(pair.0, lib);
    DecodeClean(pair.1, lib);
  }

  lemma SplitAfter(a: string, sep: char, b: string)
    requires sep !in a
    ensures Split(a, sep) == [a]
    ensures Split(a + [sep] + b, sep) == [a] + Split(b, sep)
  {
    hide Find;
    FindAfter(a, sep, b);
    var s := a + [sep] + b;
    assert s[..|a|] == a && s[|a| + 1..] == b;
  }

  /** Taking apart a joined query string gives back exactly its pairs, in order. */
  lemma {:induction false} QsRoundTrip(pairs: Pairs, lib: Library)
    requires Clean(pairs, lib) && pairs != []
    ensures ParseQs(Join(pairs), lib) == pairs
  {
    hide Split, PairOf, Piece;
    var piece := Piece(pairs[0]);
    PairOfPiece(pairs[0], lib);
    if |pairs| == 1 {
      SplitAfter(piece, '&', "");
      assert PairsOf([piece], lib) == PairOf(piece, lib) + PairsOf([piece][1..], lib);
      assert [piece][1..] == [];
    } else {
      var rest := Join(pairs[1..]);
      QsRoundTrip(pairs[1..], lib);
      SplitAfter(piece, '&', rest);
      var pieces := [piece] + Split(rest, '&');
      assert pieces[1..] == Split(rest, '&');
      assert PairsOf(pieces, lib) == [pairs[0]] + ParseQs(rest, lib);
    }
  }

  /**
   A QR text that spells its fields cleanly parses to exactly those fields, whatever their order and
   whatever else it carries; the first value of a repeated key wins.
   */
  lemma QrRoundTrip(pairs: Pairs, lib: Library)
    requires Clean(pairs, lib) && pairs != []
    requires Strip(Join(pairs)) == Join(pairs) && !(HTTPS <= Join(pairs))
    ensures ParseQr(Join(pairs), lib) == FromPairs(pairs, lib)
  {
    hide ParseQs, FromPairs, Join;
    QsRoundTrip(pairs, lib);
  }

  // ---------------------------------------------------------------- the fiscal format

  /** Percent-decoding leaves text without a percent sign alone. */
  ghost predicate Faithful(lib: Library) {
    forall s :: '%' !in s ==> lib.unquote(s) == s
  }

  predicate FieldText(s: string) {
    s != "" && forall k :: 0 <= k < |s| ==> s[k] != '&' && s[k] != '=' && s[k] != '+' && s[k] != '%'
  }

  /** The fields of a fiscal QR code as tax law lays them out. */
  function QrFields(fn: string, fd: string, fp: string, kop: nat, t: string, operation: nat): Pairs {
    [("t", t), ("s", Decimal(kop / 100) + "." + Money.Cents(kop % 100)), ("fn", fn), ("i", fd), ("fp", fp),
     ("n", Decimal(operation))]
  }

  lemma DigitsAreFields(s: string)
    requires AllDigits(s) && s != ""
    ensures FieldText(s)
  {
  }

  lemma {:induction false} JoinEnds(pairs: Pairs)
    requires pairs != [] && forall k :: 0 <= k < |pairs| ==> pairs[k].0 != "" && pairs[k].1 != ""
    ensures
      var s, last := Join(pairs), pairs[|pairs| - 1].1;
      s != "" && s[0] == pairs[0].0[0] && s[|s| - 1] == last[|last| - 1]
  {
    if |pairs| > 1 {
      JoinEnds(pairs[1..]);
    }
  }

  /** A fiscal QR code, written out from its fields, parses to exactly those fields. */
  lemma FiscalQrRoundTrip(fn: string, fd: string, fp: string, kop: nat, t: string, operation: nat, lib: Library)
    requires Faithful(lib) && FieldText(fn) && FieldText(fd) && FieldText(fp) && FieldText(t)
    requires lib.instant(Strip(t)).At?
    ensures ParseQr(Join(QrFields(fn, fd, fp, kop, t, operation)), lib)
         == Success(ParsedQr(fn, fd, fp, kop, lib.instant(Strip(t)).seconds, operation))
  {
    hide Join, ParseQr, Strip, FromPairs, Clean, QrFields;
    var pairs := QrFields(fn, fd, fp, kop, t, operation);
    FieldsAreClean(fn, fd, fp, kop, t, operation, lib);
    FieldsRead(fn, fd, fp, kop, t, operation, lib);
    FieldsFrame(fn, fd, fp, kop, t, operation);
    StripClean(Join(pairs));
    QrRoundTrip(pairs, lib);
  }

  lemma FieldsAreClean(fn: string, fd: string, fp: string, kop: nat, t: string, operation: nat, lib: Library)
    requires Faithful(lib) && FieldText(fn) && FieldText(fd) && FieldText(fp) && FieldText(t)
    ensures Clean(QrFields(fn, fd, fp, kop, t, operation), lib)
  {
    hide Decimal, Money.Cents, Value;
    DigitsAreFields(Decimal(kop / 100));
    DigitsAreFields(Money.Cents(kop % 100));
    DigitsAreFields(Decimal(operation));
  }

  lemma FieldsRead(fn: string, fd: string, fp: string, kop: nat, t: string, operation: nat, lib: Library)
    requires lib.instant(Strip(t)).At?
    ensures FromPairs(QrFields(fn, fd, fp, kop, t, operation), lib)
         == Success(ParsedQr(fn, fd, fp, kop, lib.instant(Strip(t)).seconds, operation))
  {
    hide Strip, First, Decimal, Value, PyInt, Money.ParseSum, Money.Cents;
    var pairs := QrFields(fn, fd, fp, kop, t, operation);
    Money.WrittenSumReads(kop);
    PyIntOfDigits(Decimal(operation));
    assert pairs[0].0 == "t" && pairs[1].0 == "s" && pairs[2].0 == "fn";
    assert pairs[3].0 == "i" && pairs[4].0 == "fp" && pairs[5].0 == "n";
  }

  /** The written code starts with a letter other than h and ends with a digit. */
  lemma FieldsFrame(fn: string, fd: string, fp: string, kop: nat, t: string, operation: nat)
    requires FieldText(fn) && FieldText(fd) && FieldText(fp) && FieldText(t)
    ensures
      var pairs := QrFields(fn, fd, fp, kop, t, operation);
      var text := Join(pairs);
      pairs != [] && text != "" && text[0] == 't' && IsDigit(text[|text| - 1]) && !(HTTPS <= text)
  {
    hide Join, Decimal, Money.Cents, Value;
    JoinEnds(QrFields(fn, fd, fp, kop, t, operation));
  }

  const REQUIRED_KEYS: set<string> := {"fn", "i", "fp", "s", "t"}

  predicate Lacks(pairs: Pairs, key: string) {
    forall k :: 0 <= k < |pairs| ==> pairs[k].0 != key
  }

  /** A text is refused for missing keys exactly when some required key has no non-empty value in it. */
  lemma MissingKeysIff(text: string, lib: Library)
    ensures ParseQr(text, lib) == Failure(MissingKeys)
      <==> QueryOf(text).Some? && exists key :: key in REQUIRED_KEYS && Lacks(ParseQs(QueryOf(text).value, lib), key)
  {
    hide QueryOf, ParseQs, FromPairs, Lacks;
    if QueryOf(text).Some? {
      FromPairsLacks(ParseQs(QueryOf(text).value, lib), lib);
    }
  }

  lemma FromPairsLacks(pairs: Pairs, lib: Library)
    ensures FromPairs(pairs, lib) == Failure(MissingKeys) <==> exists key :: key in REQUIRED_KEYS && Lacks(pairs, key)
  {
    hide First, Lacks, Money.ParseSum, PyInt, Strip;
    forall key ensures First(pairs, key).None? <==> Lacks(pairs, key) {
      FirstNone(pairs, key);
    }
    assert First(pairs, "fn").None? || First(pairs, "i").None? || First(pairs, "fp").None?
           || First(pairs, "s").None? || First(pairs, "t").None?
      <==> FromPairs(pairs, lib) == Failure(MissingKeys);
    assert "fn" in REQUIRED_KEYS && "i" in REQUIRED_KEYS && "fp" in REQUIRED_KEYS;
    assert "s" in REQUIRED_KEYS && "t" in REQUIRED_KEYS;
  }

  lemma FirstNone(pairs: Pairs, key: string)
    ensures First(pairs, key).None? <==> Lacks(pairs, key)
  {
  }

  /** With all required keys there, the first of sum, date and operation that cannot be read is reported. */
  lemma ErrorsIff(text: string, lib: Library)
    requires QueryOf(text).Some? && ParseQr(text, lib) != Failure(MissingKeys)
    ensures
      var pairs := ParseQs(QueryOf(text).value, lib);
      var s, t, n := First(pairs, "s"), First(pairs, "t"), First(pairs, "n");
      && s.Some? && t.Some?
      && (ParseQr(text, lib) == Failure(BadSum) <==> Money.ParseSum(s.value).None?)
      && (ParseQr(text, lib) == Failure(BadDate) <==>
            Money.ParseSum(s.value).Some? && lib.instant(Strip(t.value)).NoFormat?)
      && (ParseQr(text, lib) == Failure(DateOverflow) <==>
            Money.ParseSum(s.value).Some? && lib.instant(Strip(t.value)).OutOfCalendar?)
      && (ParseQr(text, lib) == Failure(BadOperation) <==>
            Money.ParseSum(s.value).Some? && lib.instant(Strip(t.value)).At? && n.Some? && PyInt(n.value).None?)
      && (ParseQr(text, lib).Success? && n.None? ==> ParseQr(text, lib).value.operationType == 1)
  {
    hide QueryOf, ParseQs, First, Money.ParseSum, PyInt, Strip;
  }

  /** Only a full https URL without a question mark has no query string at all. */
  lemma NoQueryIff(text: string, lib: Library)
    ensures ParseQr(text, lib) == Failure(NoQueryString) <==> HTTPS <= Strip(text) && '?' !in Strip(text)
  {
    hide ParseQs, Money.ParseSum, PyInt, Strip, Find, First;
  }

  /** A name without '=' or without a value is dropped, and a plus sign stands for a blank. */
  lemma PiecesRead(name: string, value: string, lib: Library)
    requires Faithful(lib) && forall c :: c in name || c in value ==> c != '=' && c != '%' && c != '&'
    ensures PairOf(name, lib) == [] && PairOf(name + "=", lib) == []
    ensures value != "" ==>
      PairOf(name + "=" + value, lib) == [(Replace(name, '+', ' '), Replace(value, '+', ' '))]
  {
    hide Find, Replace;
    assert forall k :: 0 <= k < |name| ==> name[k] in name;
    assert forall k :: 0 <= k < |value| ==> value[k] in value;
    FindAfter(name, '=', "");
    FindAfter(name, '=', value);
    assert name + "=" + "" == name + "=";
    var piece := name + "=" + value;
    assert piece[..|name|] == name && piece[|name| + 1..] == value;
    assert forall k :: 0 <= k < |name| ==> Replace(name, '+', ' ')[k] != '%';
    assert forall k :: 0 <= k < |value| ==> Replace(value, '+', ' ')[k] != '%';
  }

  /** Wrapping a query string in a full URL does not change what is read from it. */
  lemma UrlPrefixIsIgnored(host: string, query: string, lib: Library)
    requires '?' !in host && query != "" && !IsSpace(query[|query| - 1])
    requires Strip(query) == query && !(HTTPS <= query)
    ensures ParseQr(HTTPS + host + "?" + query, lib) == ParseQr(query, lib)
  {
    hide FromPairs, ParseQs, Find;
    var url := HTTPS + host + "?" + query;
    assert url[|url| - 1] == query[|query| - 1] && url[0] == 'h';
    StripClean(url);
    assert HTTPS <= url;
    FindAfter(HTTPS + host, '?', query);
    assert url == (HTTPS + host) + "?" + query;
    assert url[|HTTPS + host| + 1..] == query;
  }
}
