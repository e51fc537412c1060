/** Promotions applied in priority order with early stopping (bonus_engine/engine.py). */
module BonusEngine {
  import opened Wrappers
  import opened BonusRules

  datatype Promotion = Promotion(id: int, priority: int, stackable: bool, rules: seq<Rule>)

  datatype Applied = Applied(promotionId: int, ruleIndex: nat, amount: int)

  datatype BonusResult = BonusResult(totalAmount: int, breakdown: seq<Applied>)

  // ---------------------------------------------------------------- stable order by priority

  predicate Descending(ps: seq<Promotion>) {
    forall i, j :: 0 <= i < j < |ps| ==> ps[i].priority >= ps[j].priority
  }

  /** The promotions of one priority, in their given order. */
  function WithPriority(ps: seq<Promotion>, v: int): seq<Promotion> {
    if ps == [] then [] else (if ps[0].priority == v then [ps[0]] else []) + WithPriority(ps[1..], v)
  }

  /** sorted(..., reverse=True): descending, equal priorities in their given order. */
  ghost predicate StableOrder(ps: seq<Promotion>, sorted: seq<Promotion>) {
    Descending(sorted) && forall v :: WithPriority(sorted, v) == WithPriority(ps, v)
  }

  function InsertPromotion(p: Promotion, sorted: seq<Promotion>): seq<Promotion> {
    if sorted == [] || p.priority >= sorted[0].priority then [p] + sorted
    else [sorted[0]] + InsertPromotion(p, sorted[1..])
  }

  function SortByPriority(ps: seq<Promotion>): seq<Promotion> {
    if ps == [] then [] else InsertPromotion(ps[0], SortByPriority(ps[1..]))
  }

  lemma {:induction false} InsertKeepsOrder(p: Promotion, sorted: seq<Promotion>)
    requires Descending(sorted)
    ensures Descending(InsertPromotion(p, sorted))
    ensures forall v :: WithPriority(InsertPromotion(p, sorted), v)
                     == (if p.priority == v then [p] else []) + WithPriority(sorted, v)
    ensures InsertPromotion(p, sorted) != []
    ensures InsertPromotion(p, sorted)[0].priority == p.priority
         || (sorted != [] && InsertPromotion(p, sorted)[0].priority == sorted[0].priority)
  {
    var r := InsertPromotion(p, sorted);
    if sorted == [] || p.priority >= sorted[0].priority {
      assert r[1..] == sorted;
    } else {
      InsertKeepsOrder(p, sorted[1..]);
      assert r[1..] == InsertPromotion(p, sorted[1..]);
      forall v ensures WithPriority(r, v) == (if p.priority == v then [p] else []) + WithPriority(sorted, v) {
        assert WithPriority(r, v) == (if sorted[0].priority == v then [sorted[0]] else []) + WithPriority(r[1..], v);
      }
    }
  }

  lemma {:induction false} SortIsStable(ps: seq<Promotion>)
    ensures StableOrder(ps, SortByPriority(ps))
  {
    if ps != [] {
      SortIsStable(ps[1..]);
      InsertKeepsOrder(ps[0], SortByPriority(ps[1..]));
    }
  }

  lemma {:induction false} SomeWithPriority(ps: seq<Promotion>, v: int) returns (k: nat)
    requires WithPriority(ps, v) != []
    ensures k < |ps| && ps[k].priority == v
  {
    if ps[0].priority == v {
      k := 0;
    } else {
      k := SomeWithPriority(ps[1..], v);
      k := k + 1;
    }
  }

  lemma HeadPriorityAtMost(a: seq<Promotion>, b: seq<Promotion>)
    requires a != [] && Descending(b)
    requires forall v :: WithPriority(a, v) == WithPriority(b, v)
    ensures b != [] && a[0].priority <= b[0].priority
  {
    var v := a[0].priority;
    assert WithPriority(a, v) != [];
    var k := SomeWithPriority(b, v);
  }

  lemma SameTails(a: seq<Promotion>, b: seq<Promotion>, w: int)
    requires a != [] && b != [] && a[0] == b[0] && WithPriority(a, w) == WithPriority(b, w)
    ensures WithPriority(a[1..], w) == WithPriority(b[1..], w)
  {
    var head := if a[0].priority == w then [a[0]] else [];
    assert WithPriority(a, w) == head + WithPriority(a[1..], w);
    assert WithPriority(b, w) == head + WithPriority(b[1..], w);
    assert WithPriority(a, w)[|head|..] == WithPriority(a[1..], w);
    assert WithPriority(b, w)[|head|..] == WithPriority(b[1..], w);
  }

  /** There is only one stable order, so how the sort is implemented does not matter. */
  lemma {:induction false} StableOrderIsUnique(a: seq<Promotion>, b: seq<Promotion>)
    requires Descending(a) && Descending(b)
    requires forall v :: WithPriority(a, v) == WithPriority(b, v)
    ensures a == b
  {
    if a == [] {
      if b != [] { HeadPriorityAtMost(b, a); }
    } else {
      HeadPriorityAtMost(a, b);
      HeadPriorityAtMost(b, a);
      var v := a[0].priority;
      assert WithPriority(a, v)[0] == a[0] && WithPriority(b, v)[0] == b[0];
      forall w ensures WithPriority(a[1..], w) == WithPriority(b[1..], w) {
        SameTails(a, b, w);
      }
      StableOrderIsUnique(a[1..], b[1..]);
      assert a == [a[0]] + a[1..] && b == [b[0]] + b[1..];
    }
  }

  // ---------------------------------------------------------------- the declarative result

  function AmountSum(xs: seq<Applied>): int {
    if xs == [] then 0 else AmountSum(xs[..|xs| - 1]) + xs[|xs| - 1].amount
  }

  /** The positive amounts of a promotion's first n rules, in rule order. */
  function AppliedRules(p: Promotion, context: Context, n: nat): seq<Applied>
    requires n <= |p.rules|
  {
    if n == 0 then []
    else
      var amount := Worth(p.rules[n - 1], context);
      AppliedRules(p, context, n - 1) + if amount > 0 then [Applied(p.id, n - 1, amount)] else []
  }

  function AllApplied(p: Promotion, context: Context): seq<Applied> {
    AppliedRules(p, context, |p.rules|)
  }

  function PromotionTotal(p: Promotion, context: Context): int {
    AmountSum(AllApplied(p, context))
  }

  predicate Stops(p: Promotion, context: Context) {
    PromotionTotal(p, context) > 0 && !p.stackable
  }

  function Breakdown(ps: seq<Promotion>, context: Context): seq<Applied> {
    if ps == [] then [] else Breakdown(ps[..|ps| - 1], context) + AllApplied(ps[|ps| - 1], context)
  }

  /** The promotions that count are the first n: everything up to the first one that stops the chain. */
  ghost predicate IsCutoff(ps: seq<Promotion>, context: Context, n: nat) {
    && n <= |ps|
    && (forall k :: 0 <= k < n - 1 ==> !Stops(ps[k], context))
    && (n < |ps| ==> n > 0 && Stops(ps[n - 1], context))
  }

  /** The result over an ordered list: breakdown of the counting prefix, total its sum. */
  ghost predicate IsBonus(sorted: seq<Promotion>, context: Context, r: BonusResult) {
    && r.totalAmount == AmountSum(r.breakdown)
    && exists n: nat :: IsCutoff(sorted, context, n) && r.breakdown == Breakdown(sorted[..n], context)
  }

  lemma CutoffUnique(ps: seq<Promotion>, context: Context, n: nat, m: nat)
    requires IsCutoff(ps, context, n) && IsCutoff(ps, context, m)
    ensures n == m
  {
  }

  /** The declarative result is unique. */
  lemma BonusUnique(sorted: seq<Promotion>, context: Context, a: BonusResult, b: BonusResult)
    requires IsBonus(sorted, context, a) && IsBonus(sorted, context, b)
    ensures a == b
  {
    var n: nat :| IsCutoff(sorted, context, n) && a.breakdown == Breakdown(sorted[..n], context);
    var m: nat :| IsCutoff(sorted, context, m) && b.breakdown == Breakdown(sorted[..m], context);
    CutoffUnique(sorted, context, n, m);
  }

  lemma {:induction false} AmountSumConcat(a: seq<Applied>, b: seq<Applied>)
    ensures AmountSum(a + b) == AmountSum(a) + AmountSum(b)
  {
    if b == [] {
      assert a + b == a;
    } else {
      AmountSumConcat(a, b[..|b| - 1]);
      assert (a + b)[..|a + b| - 1] == a + b[..|b| - 1];
    }
  }

  // ---------------------------------------------------------------- the engine as it runs

  method InterpretRule(rule: Rule, context: Context) returns (amount: int)
    ensures amount == Worth(rule, context)
  {
    match rule {
      case FlatPerReceipt(a) => amount := if a > 0 then a else 0;
      case FlatPerItem(skuIds, a) => amount := FlatPerItemBonus(skuIds, a, context);
      case BySku(bonuses) => amount := BySkuBonus(bonuses, context);
      case ByQuantityTier(skuIds, tiers) => amount := QuantityTierBonus(skuIds, tiers, context);
      case FirstNReceipts(n, a) =>
        if n <= 0 || a <= 0 {
          amount := 0;
        } else if context.receiptCount < n {
          amount := a;
        } else {
          amount := 0;
        }
      case UnknownRule(_) => amount := 0;
    }
  }

  /** The inner loop: one promotion's rules, appended to the breakdown. */
  method ApplyPromotion(promo: Promotion, context: Context, before: seq<Applied>)
    returns (breakdown: seq<Applied>, promoTotal: int)
    ensures breakdown == before + AllApplied(promo, context)
    ensures promoTotal == PromotionTotal(promo, context) >= 0
    ensures promoTotal == 0 ==> AllApplied(promo, context) == []
  {
    breakdown, promoTotal := before, 0;
    for idx := 0 to |promo.rules|
      invariant breakdown == before + AppliedRules(promo, context, idx)
      invariant promoTotal == AmountSum(AppliedRules(promo, context, idx)) >= 0
      invariant promoTotal == 0 ==> AppliedRules(promo, context, idx) == []
    {
      var amount := InterpretRule(promo.rules[idx], context);
      ghost var soFar := AppliedRules(promo, context, idx);
      if amount > 0 {
        var applied := Applied(promo.id, idx, amount);
        assert (soFar + [applied])[..|soFar|] == soFar;
        assert AppliedRules(promo, context, idx + 1) == soFar + [applied];
        breakdown := breakdown + [applied];
        promoTotal := promoTotal + amount;
      } else {
        assert AppliedRules(promo, context, idx + 1) == soFar;
      }
    }
  }

  /**
   For every list of promotions: the breakdown is exactly the positive rule amounts, in order, over
   the stable priority order cut after the first non-stackable promotion that earned something.
   */
  method CalculateBonus(promotions: seq<Promotion>, context: Context) returns (r: BonusResult)
    ensures exists sorted :: StableOrder(promotions, sorted) && IsBonus(sorted, context, r)
  {
    hide AllApplied, InsertPromotion;
    var sorted := SortByPriority(promotions);
    SortIsStable(promotions);
    hide StableOrder, SortByPriority;
    var breakdown: seq<Applied> := [];
    var total := 0;
    var k := 0;
    while k < |sorted|
      invariant 0 <= k <= |sorted|
      invariant breakdown == Breakdown(sorted[..k], context)
      invariant total == AmountSum(breakdown)
      invariant forall j :: 0 <= j < k ==> !Stops(sorted[j], context)
    {
      var promo := sorted[k];
      ghost var before := breakdown;
      var promoTotal: int;
      breakdown, promoTotal := ApplyPromotion(promo, context, breakdown);
      AmountSumConcat(before, AllApplied(promo, context));
      assert sorted[..k + 1][..k] == sorted[..k];
      k := k + 1;
      if promoTotal > 0 {
        total := total + promoTotal;
        if !promo.stackable {
          break;
        }
      }
    }
    assert IsCutoff(sorted, context, k);
    r := BonusResult(total, breakdown);
    assert IsBonus(sorted, context, r);
  }
}
