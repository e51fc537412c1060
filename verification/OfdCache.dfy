/**
 The cache in front of the OFD provider (ofd_client/cache.py) and the cache-first step that uses it
 (receipt_pipeline/orchestrator.py).
 */
module OfdCache {
  import opened Wrappers
  import opened Text
  import opened OfdClient
  import QrCodes

  datatype Triple = Triple(fn: string, fd: string, fp: string)

  function CacheKey(t: Triple): string {
    "ofd:" + t.fn + ":" + t.fd + ":" + t.fp
  }

  predicate ColonFree(t: Triple) {
    ':' !in t.fn && ':' !in t.fd && ':' !in t.fp
  }

  // ---------------------------------------------------------------- which keys are unambiguous

  function Colons(s: string): nat {
    if s == "" then 0 else (if s[0] == ':' then 1 else 0) + Colons(s[1..])
  }

  lemma {:induction false} ColonsConcat(a: string, b: string)
    ensures Colons(a + b) == Colons(a) + Colons(b)
  {
    if a == "" {
      assert a + b == b;
    } else {
      assert (a + b)[1..] == a[1..] + b && (a + b)[0] == a[0];
      ColonsConcat(a[1..], b);
    }
  }

  lemma {:induction false} NoColons(s: string)
    ensures Colons(s) == 0 <==> ':' !in s
  {
    if s != "" {
      NoColons(s[1..]);
      assert s == [s[0]] + s[1..];
    }
  }

  lemma ColonsOfKey(t: Triple)
    ensures Colons(CacheKey(t)) == 3 + Colons(t.fn) + Colons(t.fd) + Colons(t.fp)
  {
    hide Colons;
    OneColon();
    ColonsConcat("ofd:", t.fn);
    ColonsConcat("ofd:" + t.fn, ":");
    ColonsConcat("ofd:" + t.fn + ":", t.fd);
    ColonsConcat("ofd:" + t.fn + ":" + t.fd, ":");
    ColonsConcat("ofd:" + t.fn + ":" + t.fd + ":", t.fp);
  }

  lemma OneColon()
    ensures Colons(":") == 1 && Colons("ofd:") == 1
  {
    assert "ofd:"[1..] == "fd:" && "fd:"[1..] == "d:" && "d:"[1..] == ":" && ":"[1..] == "";
    assert Colons("") == 0;
    assert Colons("d:") == 1 && Colons("fd:") == 1;
  }

  lemma JoinInjective(a: string, x: string, b: string, y: string)
    requires ':' !in a && ':' !in b && a + ":" + x == b + ":" + y
    ensures a == b && x == y
  {
    hide Find;
    FindAfter(a, ':', x);
    FindAfter(b, ':', y);
    var s := a + ":" + x;
    assert s == b + ":" + y;
    assert s[..|a|] == a && s[..|b|] == b;
    assert s[|a| + 1..] == x && s[|b| + 1..] == y;
  }

  /** No other triple shares the key of a colon-free one. */
  lemma CacheKeyIsInjective(s: Triple, t: Triple)
    requires ColonFree(t) && CacheKey(s) == CacheKey(t)
    ensures s == t
  {
    hide Colons, CacheKey;
    ColonsOfKey(s);
    ColonsOfKey(t);
    NoColons(t.fn);
    NoColons(t.fd);
    NoColons(t.fp);
    NoColons(s.fn);
    NoColons(s.fd);
    SplitKey(s);
    SplitKey(t);
    JoinInjective(s.fn, s.fd + ":" + s.fp, t.fn, t.fd + ":" + t.fp);
    JoinInjective(s.fd, s.fp, t.fd, t.fp);
  }

  lemma SplitKey(t: Triple)
    ensures CacheKey(t)[4..] == t.fn + ":" + (t.fd + ":" + t.fp)
  {
    assert CacheKey(t) == "ofd:" + (t.fn + ":" + (t.fd + ":" + t.fp));
  }

  /** Two components and the separator between them, cut elsewhere. */
  lemma Recut(a: string, b: string, c: string)
    ensures a + ":" + b + ":" + c == a + ":" + (b + ":" + c)
    ensures a + ":" + b + ":" + c == (a + ":" + b) + ":" + c
  {
  }

  lemma CutAt(s: string) returns (left: string, right: string)
    requires ':' in s
    ensures s == left + ":" + right && |left| < |s|
  {
    var i := Find(s, ':');
    left, right := s[..i], s[i + 1..];
  }

  /** A triple with a colon anywhere shares its key with another one: one separator moves. */
  lemma ColonsCollide(t: Triple) returns (s: Triple)
    requires !ColonFree(t)
    ensures s != t && CacheKey(s) == CacheKey(t)
  {
    if ':' in t.fn {
      var left, right := CutAt(t.fn);
      s := Triple(left, right + ":" + t.fd, t.fp);
      Recut(left, right, t.fd);
      Prefixed(t.fn + ":" + t.fd, left + ":" + (right + ":" + t.fd), t, s);
    } else if ':' in t.fd {
      var left, right := CutAt(t.fd);
      s := Triple(t.fn, left, right + ":" + t.fp);
      Recut(left, right, t.fp);
      Suffixed(t, s);
    } else {
      var left, right := CutAt(t.fp);
      s := Triple(t.fn, t.fd + ":" + left, right);
      Recut(t.fd, left, right);
      Suffixed(t, s);
    }
  }

  lemma Prefixed(x: string, y: string, t: Triple, s: Triple)
    requires x == y && x == t.fn + ":" + t.fd && y == s.fn + ":" + s.fd && s.fp == t.fp
    ensures CacheKey(s) == CacheKey(t)
  {
    assert CacheKey(t) == "ofd:" + x + ":" + t.fp;
    assert CacheKey(s) == "ofd:" + y + ":" + s.fp;
  }

  lemma Suffixed(t: Triple, s: Triple)
    requires s.fn == t.fn && s.fd + ":" + s.fp == t.fd + ":" + t.fp
    ensures CacheKey(s) == CacheKey(t)
  {
    assert CacheKey(t) == "ofd:" + t.fn + ":" + (t.fd + ":" + t.fp);
    assert CacheKey(s) == "ofd:" + s.fn + ":" + (s.fd + ":" + s.fp);
  }

  /** A key belongs to its triple alone exactly when none of the three components has a colon. */
  lemma KeyIsUnambiguousIff(t: Triple)
    ensures ColonFree(t) <==> forall s :: CacheKey(s) == CacheKey(t) ==> s == t
  {
    hide CacheKey, ColonFree;
    if ColonFree(t) {
      forall s | CacheKey(s) == CacheKey(t) ensures s == t {
        CacheKeyIsInjective(s, t);
      }
    } else {
      var s := ColonsCollide(t);
      assert CacheKey(s) == CacheKey(t);
    }
  }

  /** The key of a colon-free triple, split at the colons, gives back the triple in its order. */
  lemma KeySplits(t: Triple)
    requires ColonFree(t)
    ensures QrCodes.Split(CacheKey(t), ':') == ["ofd", t.fn, t.fd, t.fp]
  {
    hide QrCodes.Split;
    var tail := t.fd + ":" + t.fp;
    assert CacheKey(t) == "ofd" + ":" + (t.fn + ":" + tail);
    QrCodes.SplitAfter("ofd", ':', t.fn + ":" + tail);
    QrCodes.SplitAfter(t.fn, ':', tail);
    QrCodes.SplitAfter(t.fd, ':', t.fp);
    QrCodes.SplitAfter(t.fp, ':', "");
  }

  // ---------------------------------------------------------------- the in-memory cache

  /** The last receipt stored under a key, among all the calls of set since the last clear. */
  function Latest(log: seq<(Triple, OfdReceipt)>, key: string): Option<OfdReceipt> {
    if log == [] then None
    else if CacheKey(log[|log| - 1].0) == key then Some(log[|log| - 1].1)
    else Latest(log[..|log| - 1], key)
  }

  /** For a colon-free triple that is the last receipt stored for this triple itself. */
  lemma {:induction false} LatestIsOwn(log: seq<(Triple, OfdReceipt)>, t: Triple)
    requires ColonFree(t)
    ensures Latest(log, CacheKey(t)).None? ==> forall k :: 0 <= k < |log| ==> log[k].0 != t
    ensures Latest(log, CacheKey(t)).Some? ==>
      exists k :: 0 <= k < |log| && log[k] == (t, Latest(log, CacheKey(t)).value)
                  && forall j :: k < j < |log| ==> log[j].0 != t
  {
    hide CacheKey;
    if log != [] {
      var front, last := log[..|log| - 1], log[|log| - 1];
      if CacheKey(last.0) == CacheKey(t) {
        CacheKeyIsInjective(last.0, t);
      } else {
        LatestIsOwn(front, t);
        if Latest(front, CacheKey(t)).Some? {
          var k :| 0 <= k < |front| && front[k] == (t, Latest(front, CacheKey(t)).value)
                   && forall j :: k < j < |front| ==> front[j].0 != t;
          assert log[k] == front[k];
          assert forall j :: k < j < |front| ==> log[j] == front[j];
        } else {
          assert forall j :: 0 <= j < |front| ==> log[j] == front[j];
        }
      }
    }
  }

  class InMemoryOfdCache {
    var store: map<string, OfdReceipt>
    /** The calls of set since the last clear. */
    ghost var log: seq<(Triple, OfdReceipt)>

    ghost predicate Valid()
      reads this
    {
      forall key :: if key in store then Latest(log, key) == Some(store[key]) else Latest(log, key) == None
    }

    constructor ()
      ensures Valid() && log == []
    {
      store, log := map[], [];
    }

    /** What was stored last under the triple's key, if anything was. */
    method Get(t: Triple) returns (r: Option<OfdReceipt>)
      requires Valid()
      ensures r == Latest(log, CacheKey(t))
    {
      var key := CacheKey(t);
      if key in store {
        return Some(store[key]);
      }
      return None;
    }

    /** Storing a receipt changes what is returned for its own triple and for no colon-free other one. */
    method Set(t: Triple, receipt: OfdReceipt)
      requires Valid()
      modifies this
      ensures Valid() && log == old(log) + [(t, receipt)]
      ensures Latest(log, CacheKey(t)) == Some(receipt)
      ensures forall s: Triple :: s != t && (ColonFree(s) || ColonFree(t)) ==>
        Latest(log, CacheKey(s)) == Latest(old(log), CacheKey(s))
    {
      hide CacheKey;
      store := store[CacheKey(t) := receipt];
      log := log + [(t, receipt)];
      assert log[..|log| - 1] == old(log);
      forall s: Triple | s != t && (ColonFree(s) || ColonFree(t)) ensures CacheKey(s) != CacheKey(t) {
        if CacheKey(s) == CacheKey(t) {
          if ColonFree(t) { CacheKeyIsInjective(s, t); } else { CacheKeyIsInjective(t, s); }
        }
      }
    }

    method Clear()
      modifies this
      ensures Valid() && log == []
    {
      store, log := map[], [];
    }
  }

  // ---------------------------------------------------------------- runs of the fetch step

  /** answers lists every successful provider answer with the triple it was asked for. */
  datatype State = State(store: map<string, OfdReceipt>, answers: seq<(Triple, OfdReceipt)>)

  /** What one fetch step returns, and how often it called the client. */
  datatype Fetched = Fetched(result: Result<OfdReceipt, FetchError>, calls: nat, hit: bool)

  /** Reads and writes of a remote cache may fail; entries may expire at any time. */
  datatype Event =
    | FetchFor(triple: Triple, attempts: int, outcomes: nat -> Outcome, readable: bool, writable: bool)
    | Expire(key: string)

  function FetchStep(s: State, e: Event): Fetched
    requires e.FetchFor?
  {
    var key := CacheKey(e.triple);
    if e.readable && key in s.store then Fetched(Success(s.store[key]), 0, true)
    else
      var run := Fetch(e.outcomes, e.attempts);
      Fetched(run.result, run.calls, false)
  }

  function Next(s: State, e: Event): State {
    match e
    case Expire(key) => s.(store := s.store - {key})
    case FetchFor(t, _, _, _, writable) =>
      var f := FetchStep(s, e);
      if f.hit || f.result.Failure? then s
      else State(
        if writable then s.store[CacheKey(t) := f.result.value] else s.store,
        s.answers + [(t, f.result.value)])
  }

  function Exec(s: State, es: seq<Event>): State
    decreases |es|
  {
    if es == [] then s else Exec(Next(s, es[0]), es[1..])
  }

  const EMPTY: State := State(map[], [])

  /** The provider once gave this receipt for some triple with this key. */
  ghost predicate GivenUnder(answers: seq<(Triple, OfdReceipt)>, key: string, receipt: OfdReceipt) {
    exists k :: 0 <= k < |answers| && CacheKey(answers[k].0) == key && answers[k].1 == receipt
  }

  ghost predicate Inv(s: State) {
    forall key :: key in s.store ==> GivenUnder(s.answers, key, s.store[key])
  }

  lemma GivenStays(answers: seq<(Triple, OfdReceipt)>, more: (Triple, OfdReceipt), key: string, receipt: OfdReceipt)
    ensures GivenUnder(answers, key, receipt) ==> GivenUnder(answers + [more], key, receipt)
    ensures GivenUnder(answers + [more], CacheKey(more.0), more.1)
  {
    hide CacheKey;
    assert (answers + [more])[|answers|] == more;
    if GivenUnder(answers, key, receipt) {
      var k :| 0 <= k < |answers| && CacheKey(answers[k].0) == key && answers[k].1 == receipt;
      assert (answers + [more])[k] == answers[k];
    }
  }

  lemma StepKeepsInv(s: State, e: Event)
    requires Inv(s)
    ensures Inv(Next(s, e))
  {
    hide Fetch, CacheKey, GivenUnder;
    var s' := Next(s, e);
    if s'.answers != s.answers {
      forall key | key in s'.store ensures GivenUnder(s'.answers, key, s'.store[key]) {
        GivenStays(s.answers, s'.answers[|s.answers|], key, s'.store[key]);
      }
    }
  }

  lemma {:induction false} RunsKeepInv(s: State, es: seq<Event>)
    requires Inv(s)
    ensures Inv(Exec(s, es))
    decreases |es|
  {
    hide Inv, Next;
    if es != [] {
      StepKeepsInv(s, es[0]);
      RunsKeepInv(Next(s, es[0]), es[1..]);
    }
  }

  /** After the run es, a hit of e is an answer the provider gave earlier for exactly e's triple. */
  ghost predicate Genuine(es: seq<Event>, e: Event)
    requires e.FetchFor?
  {
    FetchStep(Exec(EMPTY, es), e).hit ==>
      FetchStep(Exec(EMPTY, es), e).result.Success?
      && (e.triple, FetchStep(Exec(EMPTY, es), e).result.value) in Exec(EMPTY, es).answers
  }

  /**
   After any run from an empty cache, a hit makes no client call and returns an answer that the provider
   gave earlier under this key, for a colon-free triple its own answer; failed fetches never enter the store.
   */
  lemma HitsAreGenuine(es: seq<Event>, e: Event)
    requires e.FetchFor?
    ensures
      var s := Exec(EMPTY, es);
      var f := FetchStep(s, e);
      && (f.hit ==> f.calls == 0 && f.result.Success? && GivenUnder(s.answers, CacheKey(e.triple), f.result.value))
      && (f.result.Failure? ==> Next(s, e) == s)
    ensures ColonFree(e.triple) ==> Genuine(es, e)
  {
    hide CacheKey, Fetch;
    RunsKeepInv(EMPTY, es);
    var s := Exec(EMPTY, es);
    var f := FetchStep(s, e);
    if ColonFree(e.triple) && f.hit {
      var k :| 0 <= k < |s.answers|
               && CacheKey(s.answers[k].0) == CacheKey(e.triple) && s.answers[k].1 == f.result.value;
      CacheKeyIsInjective(s.answers[k].0, e.triple);
    }
  }

  const SOME_RECEIPT: OfdReceipt := OfdReceipt(100, None, None, [])

  /** Another triple's receipt is returned for a triple with a colon. */
  lemma ForeignHit(t: Triple) returns (es: seq<Event>, e: Event)
    requires !ColonFree(t)
    ensures e.FetchFor? && e.triple == t && !Genuine(es, e)
  {
    hide CacheKey;
    var s := ColonsCollide(t);
    var found := (k: nat) => Found(SOME_RECEIPT);
    var other := FetchFor(s, 1, found, true, true);
    assert FirstSettled(found, 1) == 0;
    es, e := [other], FetchFor(t, 1, found, true, true);
    assert es[1..] == [];
    assert Exec(EMPTY, es) == Next(EMPTY, other);
    assert Next(EMPTY, other) == State(map[CacheKey(s) := SOME_RECEIPT], [(s, SOME_RECEIPT)]);
  }

  /** Every hit on a triple is genuine in every run exactly when the triple has no colon. */
  lemma HitsAreGenuineIff(t: Triple)
    ensures ColonFree(t) <==> forall es, e: Event :: e.FetchFor? && e.triple == t ==> Genuine(es, e)
  {
    hide ColonFree, Genuine;
    if ColonFree(t) {
      forall es, e: Event | e.FetchFor? && e.triple == t ensures Genuine(es, e) {
        HitsAreGenuine(es, e);
      }
    } else {
      var es, e := ForeignHit(t);
      assert !Genuine(es, e);
    }
  }
}
