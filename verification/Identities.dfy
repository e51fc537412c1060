/**
 Normalised fiscal identities and how one submission's QR texts are aggregated into none, one or
 several of them (receipt_ocr/fiscal_identity.py, receipt_pipeline/identity_aggregator.py).
 */
module Identities {
  import opened Wrappers
  import opened Text
  import opened QrCodes

  datatype FiscalIdentity = FiscalIdentity(fn: string, fd: string, fp: string)

  /** Where a text was read from. */
  datatype Source = ScannedQr | Attachment(position: nat) | PdfPage(position: nat, page: nat) | LegacyFile

  datatype Candidate = Candidate(source: Source, rawQr: string, identity: Option<FiscalIdentity>)

  datatype Decision = NoReceipt | SingleReceipt | MultipleReceipts

  // ---------------------------------------------------------------- normalisation

  predicate IsAlnum(c: char) {
    IsDigit(c) || 'A' <= c <= 'Z' || 'a' <= c <= 'z'
  }

  function Upper(c: char): char {
    if 'a' <= c <= 'z' then ((c as int) - 32) as char else c
  }

  /** Only [0-9A-Za-z] is kept, then upper-cased. */
  function Squeeze(s: string): string {
    if s == "" then "" else (if IsAlnum(s[0]) then [Upper(s[0])] else "") + Squeeze(s[1..])
  }

  function NormalizeComponent(value: Option<string>): Option<string> {
    if value.None? || Squeeze(value.value) == "" then None else Some(Squeeze(value.value))
  }

  function Normalize(fn: Option<string>, fd: Option<string>, fp: Option<string>): Option<FiscalIdentity> {
    var a, b, c := NormalizeComponent(fn), NormalizeComponent(fd), NormalizeComponent(fp);
    if a.Some? && b.Some? && c.Some? then Some(FiscalIdentity(a.value, b.value, c.value)) else None
  }

  function IdentityOfTriple(fn: string, fd: string, fp: string): Option<FiscalIdentity> {
    Normalize(Some(fn), Some(fd), Some(fp))
  }

  predicate Noise(s: string) {
    forall k :: 0 <= k < |s| ==> !IsAlnum(s[k])
  }

  lemma SqueezeStep(s: string)
    ensures Squeeze("") == ""
    ensures s != "" ==> Squeeze(s) == (if IsAlnum(s[0]) then [Upper(s[0])] else "") + Squeeze(s[1..])
  {
  }

  lemma {:induction false} SqueezeConcat(a: string, b: string)
    ensures Squeeze(a + b) == Squeeze(a) + Squeeze(b)
  {
    hide Squeeze, IsAlnum, Upper;
    SqueezeStep(a);
    SqueezeStep(a + b);
    if a == "" {
      assert a + b == b;
    } else {
      assert (a + b)[1..] == a[1..] + b && (a + b)[0] == a[0];
      SqueezeConcat(a[1..], b);
    }
  }

  lemma {:induction false} SqueezeNoise(s: string)
    requires Noise(s)
    ensures Squeeze(s) == ""
  {
    if s != "" {
      SqueezeNoise(s[1..]);
    }
  }

  lemma {:induction false} SqueezeTwice(s: string)
    ensures Squeeze(Squeeze(s)) == Squeeze(s)
  {
    if s != "" {
      SqueezeTwice(s[1..]);
      if IsAlnum(s[0]) {
        assert Squeeze(s)[0] == Upper(s[0]) && Squeeze(s)[1..] == Squeeze(s[1..]);
        assert IsAlnum(Upper(s[0])) && Upper(Upper(s[0])) == Upper(s[0]);
      } else {
        assert Squeeze(s) == Squeeze(s[1..]);
      }
    }
  }

  /** Separators inserted anywhere do not change what a component normalises to. */
  lemma SeparatorsAreInvisible(a: string, noise: string, b: string)
    requires Noise(noise)
    ensures NormalizeComponent(Some(a + noise + b)) == NormalizeComponent(Some(a + b))
  {
    SqueezeConcat(a + noise, b);
    SqueezeConcat(a, noise);
    SqueezeConcat(a, b);
    SqueezeNoise(noise);
    assert Squeeze(a) + "" == Squeeze(a);
  }

  /** A normalised identity normalises to itself. */
  lemma NormalizeIsIdempotent(fn: Option<string>, fd: Option<string>, fp: Option<string>)
    requires Normalize(fn, fd, fp).Some?
    ensures
      var id := Normalize(fn, fd, fp).value;
      IdentityOfTriple(id.fn, id.fd, id.fp) == Some(id)
  {
    SqueezeTwice(fn.value);
    SqueezeTwice(fd.value);
    SqueezeTwice(fp.value);
  }

  /** Digits and capital letters stay exactly as they are. */
  lemma {:induction false} CanonicalIsKept(s: string)
    requires forall k :: 0 <= k < |s| ==> '0' <= s[k] <= '9' || 'A' <= s[k] <= 'Z'
    ensures Squeeze(s) == s
    ensures NormalizeComponent(Some(s)) == if s == "" then None else Some(s)
  {
    if s != "" {
      CanonicalIsKept(s[1..]);
      assert s == [s[0]] + s[1..];
    }
  }

  /** Numeric triples, the ordinary case, are their own identities; so two of them share one iff they are equal. */
  lemma NumericTripleIsItsIdentity(fn: string, fd: string, fp: string)
    requires fn != "" && fd != "" && fp != "" && AllDigits(fn) && AllDigits(fd) && AllDigits(fp)
    ensures IdentityOfTriple(fn, fd, fp) == Some(FiscalIdentity(fn, fd, fp))
  {
    CanonicalIsKept(fn);
    CanonicalIsKept(fd);
    CanonicalIsKept(fp);
  }

  predicate SameButForCase(c: char, d: char) {
    || c == d
    || ('a' <= c <= 'z' && d as int == c as int - 32)
    || ('a' <= d <= 'z' && c as int == d as int - 32)
  }

  /** Texts that differ only in the case of ASCII letters normalise alike. */
  lemma {:induction false} CaseIsInvisible(a: string, b: string)
    requires |a| == |b| && forall k :: 0 <= k < |a| ==> SameButForCase(a[k], b[k])
    ensures Squeeze(a) == Squeeze(b) && NormalizeComponent(Some(a)) == NormalizeComponent(Some(b))
  {
    if a != "" {
      CaseIsInvisible(a[1..], b[1..]);
    }
  }

  /** A component is lost exactly when it contains no ASCII digit and no ASCII letter. */
  lemma {:induction false} LostIff(s: string)
    ensures NormalizeComponent(Some(s)).None? <==>
      forall k :: 0 <= k < |s| ==>
        !('0' <= s[k] <= '9') && !('A' <= s[k] <= 'Z') && !('a' <= s[k] <= 'z')
  {
    if s != "" {
      LostIff(s[1..]);
      assert forall k :: 1 <= k < |s| ==> s[k] == s[1..][k - 1];
    }
  }

  /** Whatever is left of a component is made of digits and capital letters. */
  lemma {:induction false} NormalForm(s: string)
    ensures forall k :: 0 <= k < |Squeeze(s)| ==> '0' <= Squeeze(s)[k] <= '9' || 'A' <= Squeeze(s)[k] <= 'Z'
  {
    if s != "" {
      NormalForm(s[1..]);
    }
  }

  /** A triple is confident exactly when none of its components is missing or lost. */
  lemma ConfidentIff(fn: Option<string>, fd: Option<string>, fp: Option<string>)
    ensures Normalize(fn, fd, fp).Some? <==>
      NormalizeComponent(fn).Some? && NormalizeComponent(fd).Some? && NormalizeComponent(fp).Some?
    ensures fn.None? || fd.None? || fp.None? ==> Normalize(fn, fd, fp).None?
  {
  }

  // ---------------------------------------------------------------- aggregation

  /** The confident identity a raw text yields, if it parses and its triple is complete. */
  function IdentityOf(raw: string, lib: Library): Option<FiscalIdentity> {
    var parsed := ParseQr(raw, lib);
    if parsed.Success? then IdentityOfTriple(parsed.value.fn, parsed.value.fd, parsed.value.fp) else None
  }

  datatype Aggregation = Aggregation(candidates: seq<Candidate>, unique: seq<FiscalIdentity>) {
    function Primary(): Option<FiscalIdentity> {
      if |unique| == 1 then Some(unique[0]) else None
    }

    function Decide(): Decision {
      if |unique| == 0 then NoReceipt else if |unique| == 1 then SingleReceipt else MultipleReceipts
    }
  }

  /** raw_for: the first raw text that yielded the identity. */
  function RawFor(candidates: seq<Candidate>, id: FiscalIdentity): (r: Option<string>)
    ensures r.Some? ==>
      exists k :: 0 <= k < |candidates| && candidates[k].rawQr == r.value && candidates[k].identity == Some(id)
    ensures r.None? ==> forall k :: 0 <= k < |candidates| ==> candidates[k].identity != Some(id)
  {
    if candidates == [] then None
    else if candidates[0].identity == Some(id) then Some(candidates[0].rawQr)
    else RawFor(candidates[1..], id)
  }

  /** The first candidate with the identity, or the number of candidates. */
  function FirstOf(candidates: seq<Candidate>, id: FiscalIdentity): (k: nat)
    ensures k <= |candidates| && forall j :: 0 <= j < k ==> candidates[j].identity != Some(id)
    ensures k < |candidates| ==> candidates[k].identity == Some(id)
  {
    if candidates == [] || candidates[0].identity == Some(id) then 0 else 1 + FirstOf(candidates[1..], id)
  }

  /** `unique` lists the candidates' identities in the order they were first seen. */
  ghost predicate FirstSeenOrder(agg: Aggregation) {
    && (forall i :: 0 <= i < |agg.unique| ==> FirstOf(agg.candidates, agg.unique[i]) < |agg.candidates|)
    && (forall i, j :: 0 <= i < j < |agg.unique| ==>
          FirstOf(agg.candidates, agg.unique[i]) < FirstOf(agg.candidates, agg.unique[j]))
    && (forall k :: 0 <= k < |agg.candidates| && agg.candidates[k].identity.Some? ==>
          agg.candidates[k].identity.value in agg.unique)
  }

  /** raw_for takes the earliest of the texts that yielded the identity. */
  lemma {:induction false} RawForIsFirst(candidates: seq<Candidate>, id: FiscalIdentity)
    ensures RawFor(candidates, id)
         == if FirstOf(candidates, id) == |candidates| then None else Some(candidates[FirstOf(candidates, id)].rawQr)
  {
    if candidates != [] && candidates[0].identity != Some(id) {
      RawForIsFirst(candidates[1..], id);
    }
  }

  lemma FirstOfAppend(candidates: seq<Candidate>, c: Candidate, id: FiscalIdentity)
    ensures FirstOf(candidates, id) < |candidates| ==> FirstOf(candidates + [c], id) == FirstOf(candidates, id)
    ensures FirstOf(candidates, id) == |candidates| && c.identity == Some(id) ==>
      FirstOf(candidates + [c], id) == |candidates|
  {
    hide FirstOf;
    var more := candidates + [c];
    var k := FirstOf(candidates, id);
    assert k < |candidates| ==> more[k].identity == Some(id);
    assert more[|candidates|] == c;
    assert forall j :: 0 <= j < |candidates| ==> more[j] == candidates[j];
  }

  /** Appending one candidate, and its identity if it is new, keeps the order. */
  lemma OneMoreInOrder(before: Aggregation, c: Candidate, after: Aggregation)
    requires FirstSeenOrder(before) && after.candidates == before.candidates + [c]
    requires after.unique == before.unique
                             + if c.identity.Some? && c.identity.value !in before.unique then [c.identity.value] else []
    ensures FirstSeenOrder(after)
  {
    hide FirstOf;
    var n := |before.candidates|;
    forall i | 0 <= i < |before.unique|
      ensures FirstOf(after.candidates, after.unique[i]) == FirstOf(before.candidates, before.unique[i]) < n
    {
      FirstOfAppend(before.candidates, c, before.unique[i]);
    }
    if c.identity.Some? && c.identity.value !in before.unique {
      FirstOfAppend(before.candidates, c, c.identity.value);
    }
    forall k | 0 <= k <= n && after.candidates[k].identity.Some?
      ensures after.candidates[k].identity.value in after.unique
    {
      if k < n {
        assert after.candidates[k] == before.candidates[k];
      }
    }
  }

  /** The set of distinct confident identities among the sources, in whatever order and however often. */
  ghost predicate Yields(sources: seq<(Source, string)>, lib: Library, id: FiscalIdentity) {
    exists k :: 0 <= k < |sources| && IdentityOf(sources[k].1, lib) == Some(id)
  }

  /** An aggregation of the sources: one candidate each, and every identity once. */
  ghost predicate Aggregates(agg: Aggregation, sources: seq<(Source, string)>, lib: Library) {
    && |agg.candidates| == |sources|
    && (forall k :: 0 <= k < |sources| ==>
          agg.candidates[k] == Candidate(sources[k].0, sources[k].1, IdentityOf(sources[k].1, lib)))
    && (forall id :: id in agg.unique <==> Yields(sources, lib, id))
    && (forall i, j :: 0 <= i < j < |agg.unique| ==> agg.unique[i] != agg.unique[j])
  }

  /** Reading this text raises something other than QRParseError. */
  predicate Overflows(raw: string, lib: Library) {
    ParseQr(raw, lib) == Failure(DateOverflow)
  }

  /** The aggregation of sources none of which raises. */
  function Aggregate(sources: seq<(Source, string)>, lib: Library): Aggregation {
    if sources == [] then Aggregation([], [])
    else
      var before := Aggregate(sources[..|sources| - 1], lib);
      var (source, raw) := sources[|sources| - 1];
      var id := IdentityOf(raw, lib);
      Aggregation(
        before.candidates + [Candidate(source, raw, id)],
        before.unique + if id.Some? && id.value !in before.unique then [id.value] else [])
  }

  /** It has one candidate per source and every identity once, in the order they were first seen. */
  lemma {:induction false} AggregateIsRight(sources: seq<(Source, string)>, lib: Library)
    ensures Aggregates(Aggregate(sources, lib), sources, lib) && FirstSeenOrder(Aggregate(sources, lib))
  {
    hide Aggregates, FirstSeenOrder, IdentityOf;
    if sources == [] {
      NoSources(lib);
    } else {
      var k := |sources| - 1;
      AggregateIsRight(sources[..k], lib);
      assert sources[..k + 1] == sources;
      var before, after := Aggregate(sources[..k], lib), Aggregate(sources, lib);
      OneMoreSource(before, after, sources, k, lib);
      OneMoreInOrder(before, after.candidates[|before.candidates|], after);
    }
  }

  /** None when a text raises out of the loop. */
  method AggregateIdentities(sources: seq<(Source, string)>, lib: Library) returns (agg: Option<Aggregation>)
    ensures agg.None? <==> exists k :: 0 <= k < |sources| && Overflows(sources[k].1, lib)
    ensures agg.Some? ==>
      agg.value == Aggregate(sources, lib) && Aggregates(agg.value, sources, lib) && FirstSeenOrder(agg.value)
  {
    hide Aggregates, FirstSeenOrder, IdentityOf, ParseQr, Normalize;
    var candidates: seq<Candidate> := [];
    var unique: seq<FiscalIdentity> := [];
    var seen: set<FiscalIdentity> := {};
    for k := 0 to |sources|
      invariant Aggregation(candidates, unique) == Aggregate(sources[..k], lib)
      invariant forall id :: id in seen <==> id in unique
      invariant forall j :: 0 <= j < k ==> !Overflows(sources[j].1, lib)
    {
      var (source, raw) := sources[k];
      var identity: Option<FiscalIdentity> := None;
      var parsed := ParseQr(raw, lib);
      if parsed == Failure(DateOverflow) {
        assert Overflows(sources[k].1, lib);
        return None;
      }
      if parsed.Success? {
        identity := Normalize(Some(parsed.value.fn), Some(parsed.value.fd), Some(parsed.value.fp));
      }
      IdentityIs(raw, lib, identity);
      assert sources[..k + 1][..k] == sources[..k];
      candidates := candidates + [Candidate(source, raw, identity)];
      if identity.Some? && identity.value !in seen {
        seen := seen + {identity.value};
        unique := unique + [identity.value];
      }
    }
    assert sources[..|sources|] == sources;
    AggregateIsRight(sources, lib);
    return Some(Aggregation(candidates, unique));
  }

  lemma NoSources(lib: Library)
    ensures Aggregates(Aggregation([], []), [], lib) && FirstSeenOrder(Aggregation([], []))
  {
  }

  lemma IdentityIs(raw: string, lib: Library, identity: Option<FiscalIdentity>)
    requires
      var parsed := ParseQr(raw, lib);
      identity == if parsed.Success?
                  then Normalize(Some(parsed.value.fn), Some(parsed.value.fd), Some(parsed.value.fp)) else None
    ensures identity == IdentityOf(raw, lib)
  {
  }

  lemma OneMoreSource(before: Aggregation, after: Aggregation, sources: seq<(Source, string)>, k: nat, lib: Library)
    requires k < |sources| && Aggregates(before, sources[..k], lib)
    requires
      var id := IdentityOf(sources[k].1, lib);
      && after.candidates == before.candidates + [Candidate(sources[k].0, sources[k].1, id)]
      && after.unique == before.unique + if id.Some? && id.value !in before.unique then [id.value] else []
    ensures Aggregates(after, sources[..k + 1], lib)
  {
    hide IdentityOf;
    var fewer, more := sources[..k], sources[..k + 1];
    assert more == fewer + [sources[k]];
    forall id ensures Yields(more, lib, id) <==> Yields(fewer, lib, id) || IdentityOf(sources[k].1, lib) == Some(id) {
      if Yields(fewer, lib, id) {
        var i :| 0 <= i < |fewer| && IdentityOf(fewer[i].1, lib) == Some(id);
        assert more[i] == fewer[i];
      }
      if IdentityOf(sources[k].1, lib) == Some(id) {
        assert more[k] == sources[k];
      }
      if Yields(more, lib, id) && IdentityOf(sources[k].1, lib) != Some(id) {
        var i :| 0 <= i < |more| && IdentityOf(more[i].1, lib) == Some(id);
        assert fewer[i] == more[i];
      }
    }
  }

  // ---------------------------------------------------------------- what the decision depends on

  ghost predicate TextsWithin(a: seq<(Source, string)>, b: seq<(Source, string)>) {
    forall i :: 0 <= i < |a| ==> exists j :: 0 <= j < |b| && b[j].1 == a[i].1
  }

  ghost predicate SameTexts(a: seq<(Source, string)>, b: seq<(Source, string)>) {
    TextsWithin(a, b) && TextsWithin(b, a)
  }

  lemma {:induction false} SameElementsSameLength(a: seq<FiscalIdentity>, b: seq<FiscalIdentity>)
    requires forall id :: id in a ==> id in b
    requires forall i, j :: 0 <= i < j < |a| ==> a[i] != a[j]
    ensures |a| <= |b|
  {
    if a != [] {
      var last := a[|a| - 1];
      assert last in a && last in b;
      var k :| 0 <= k < |b| && b[k] == last;
      var rest := b[..k] + b[k + 1..];
      forall id | id in a[..|a| - 1] ensures id in rest {
        var i :| 0 <= i < |a| - 1 && a[i] == id;
        assert id in a && id in b;
        var l :| 0 <= l < |b| && b[l] == id;
        assert l != k;
        if l < k { assert rest[l] == id; } else { assert rest[l - 1] == id; }
      }
      SameElementsSameLength(a[..|a| - 1], rest);
    }
  }

  /**
   Permuting, repeating or relabelling the sources changes neither the decision nor the single
   identity found: both depend only on which texts occur.
   */
  lemma DecisionIgnoresOrderAndRepeats(
    a: seq<(Source, string)>, b: seq<(Source, string)>, aggA: Aggregation, aggB: Aggregation, lib: Library)
    requires SameTexts(a, b) && Aggregates(aggA, a, lib) && Aggregates(aggB, b, lib)
    ensures aggA.Decide() == aggB.Decide() && aggA.Primary() == aggB.Primary()
  {
    hide Yields, SameTexts, IdentityOf;
    forall id ensures id in aggA.unique <==> id in aggB.unique {
      SameTextsSameYields(a, b, lib, id);
    }
    SameElementsSameLength(aggA.unique, aggB.unique);
    SameElementsSameLength(aggB.unique, aggA.unique);
    if |aggA.unique| == 1 {
      assert aggA.unique[0] in aggB.unique;
    }
  }

  lemma SameTextsSameYields(a: seq<(Source, string)>, b: seq<(Source, string)>, lib: Library, id: FiscalIdentity)
    requires SameTexts(a, b)
    ensures Yields(a, lib, id) <==> Yields(b, lib, id)
  {
    hide Yields;
    MoreTextsMoreYields(a, b, lib, id);
    MoreTextsMoreYields(b, a, lib, id);
  }

  lemma MoreTextsMoreYields(a: seq<(Source, string)>, b: seq<(Source, string)>, lib: Library, id: FiscalIdentity)
    requires TextsWithin(a, b)
    ensures Yields(a, lib, id) ==> Yields(b, lib, id)
  {
    hide IdentityOf;
    if Yields(a, lib, id) {
      var i :| 0 <= i < |a| && IdentityOf(a[i].1, lib) == Some(id);
      var j :| 0 <= j < |b| && b[j].1 == a[i].1;
    }
  }

  /** With a single identity its raw text exists, parses again, and yields that identity. */
  lemma PrimaryReparses(agg: Aggregation, sources: seq<(Source, string)>, lib: Library)
    requires Aggregates(agg, sources, lib) && agg.Primary().Some?
    ensures
      var raw := RawFor(agg.candidates, agg.Primary().value);
      && raw.Some?
      && ParseQr(raw.value, lib).Success?
      && IdentityOf(raw.value, lib) == agg.Primary()
  {
    hide ParseQr, IdentityOfTriple;
    var id := agg.unique[0];
    assert id in agg.unique;
    assert Yields(sources, lib, id);
    var k :| 0 <= k < |sources| && IdentityOf(sources[k].1, lib) == Some(id);
    assert agg.candidates[k].identity == Some(id);
  }
}
