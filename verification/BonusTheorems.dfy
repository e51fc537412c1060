/** What a caller may rely on about calculate_bonus, whatever the promotions. */
module BonusTheorems {
  import opened BonusRules
  import opened BonusEngine

  /** r is what calculate_bonus returns for these promotions. */
  ghost predicate Result(ps: seq<Promotion>, context: Context, r: BonusResult) {
    exists sorted :: StableOrder(ps, sorted) && IsBonus(sorted, context, r)
  }

  /** The specification admits exactly one result. */
  lemma ResultIsUnique(ps: seq<Promotion>, context: Context, a: BonusResult, b: BonusResult)
    requires Result(ps, context, a) && Result(ps, context, b)
    ensures a == b
  {
    var s :| StableOrder(ps, s) && IsBonus(s, context, a);
    var t :| StableOrder(ps, t) && IsBonus(t, context, b);
    StableOrderIsUnique(s, t);
    BonusUnique(s, context, a, b);
  }

  // ---------------------------------------------------------------- permutations

  lemma {:induction false} CountWithPriority(ps: seq<Promotion>, v: int, p: Promotion)
    ensures multiset(WithPriority(ps, v))[p] == if p.priority == v then multiset(ps)[p] else 0
  {
    if ps != [] {
      CountWithPriority(ps[1..], v, p);
      assert ps == [ps[0]] + ps[1..];
      var head := if ps[0].priority == v then [ps[0]] else [];
      assert multiset(WithPriority(ps, v)) == multiset(head) + multiset(WithPriority(ps[1..], v));
    }
  }

  predicate DistinctPriorities(ps: seq<Promotion>) {
    forall i, j :: 0 <= i < j < |ps| ==> ps[i].priority != ps[j].priority
  }

  lemma {:induction false} AtMostOne(ps: seq<Promotion>, v: int)
    requires DistinctPriorities(ps)
    ensures |WithPriority(ps, v)| <= 1
    ensures (forall k :: 0 <= k < |ps| ==> ps[k].priority != v) ==> WithPriority(ps, v) == []
  {
    if ps != [] {
      AtMostOne(ps[1..], v);
    }
  }

  lemma SmallMultiset(a: seq<Promotion>, b: seq<Promotion>)
    requires multiset(a) == multiset(b) && |a| <= 1
    ensures a == b
  {
    assert |multiset(a)| == |multiset(b)|;
    if |a| == 1 {
      assert a[0] in multiset(b);
    }
  }

  /** With distinct priorities the order in which promotions are passed does not matter at all. */
  lemma PermutationInvariant(a: seq<Promotion>, b: seq<Promotion>, context: Context, ra: BonusResult, rb: BonusResult)
    requires multiset(a) == multiset(b) && DistinctPriorities(a)
    requires Result(a, context, ra) && Result(b, context, rb)
    ensures ra == rb
  {
    hide IsBonus;
    forall v ensures WithPriority(a, v) == WithPriority(b, v) {
      forall p: Promotion ensures multiset(WithPriority(a, v))[p] == multiset(WithPriority(b, v))[p] {
        CountWithPriority(a, v, p);
        CountWithPriority(b, v, p);
      }
      AtMostOne(a, v);
      SmallMultiset(WithPriority(a, v), WithPriority(b, v));
    }
    var s :| StableOrder(a, s) && IsBonus(s, context, ra);
    assert StableOrder(b, s);
    ResultIsUnique(b, context, ra, rb);
  }

  // ---------------------------------------------------------------- stackable promotions

  function PositiveSum(rules: seq<Rule>, context: Context, n: nat): nat
    requires n <= |rules|
  {
    if n == 0 then 0 else PositiveSum(rules, context, n - 1) + Positive(Worth(rules[n - 1], context))
  }

  /** Sum of the positive rule values of all promotions. */
  function GrandTotal(ps: seq<Promotion>, context: Context): nat {
    if ps == [] then 0
    else GrandTotal(ps[..|ps| - 1], context) + PositiveSum(ps[|ps| - 1].rules, context, |ps[|ps| - 1].rules|)
  }

  lemma {:induction false} AppliedSum(p: Promotion, context: Context, n: nat)
    requires n <= |p.rules|
    ensures AmountSum(AppliedRules(p, context, n)) == PositiveSum(p.rules, context, n)
  {
    hide Worth;
    if n > 0 {
      AppliedSum(p, context, n - 1);
      var amount := Worth(p.rules[n - 1], context);
      if amount > 0 {
        AmountSumConcat(AppliedRules(p, context, n - 1), [Applied(p.id, n - 1, amount)]);
        assert AmountSum([Applied(p.id, n - 1, amount)]) == amount;
      } else {
        assert AppliedRules(p, context, n) == AppliedRules(p, context, n - 1);
      }
    }
  }

  lemma {:induction false} BreakdownSum(ps: seq<Promotion>, context: Context)
    ensures AmountSum(Breakdown(ps, context)) == GrandTotal(ps, context)
  {
    if ps != [] {
      var last := ps[|ps| - 1];
      BreakdownSum(ps[..|ps| - 1], context);
      AppliedSum(last, context, |last.rules|);
      AmountSumConcat(Breakdown(ps[..|ps| - 1], context), AllApplied(last, context));
    }
  }

  lemma {:induction false} GrandTotalConcat(a: seq<Promotion>, b: seq<Promotion>, context: Context)
    ensures GrandTotal(a + b, context) == GrandTotal(a, context) + GrandTotal(b, context)
  {
    if b == [] {
      assert a + b == a;
    } else {
      GrandTotalConcat(a, b[..|b| - 1], context);
      assert (a + b)[..|a + b| - 1] == a + b[..|b| - 1];
    }
  }

  lemma {:induction false} GrandTotalIgnoresOrder(a: seq<Promotion>, b: seq<Promotion>, context: Context)
    requires multiset(a) == multiset(b)
    ensures GrandTotal(a, context) == GrandTotal(b, context)
  {
    assert |multiset(a)| == |a| && |multiset(b)| == |b|;
    if a != [] {
      var front, last := a[..|a| - 1], a[|a| - 1];
      var left, right := SplitAtLast(a, b);
      GrandTotalIgnoresOrder(front, left + right, context);
      hide GrandTotal;
      assert a == front + [last];
      GrandTotalConcat(left, [last], context);
      GrandTotalConcat(left + [last], right, context);
      GrandTotalConcat(left, right, context);
      GrandTotalConcat(front, [last], context);
    }
  }

  lemma MultisetWithout(left: seq<Promotion>, p: Promotion, right: seq<Promotion>)
    ensures multiset(left + right) == multiset(left + [p] + right) - multiset{p}
  {
  }

  /** Where the last promotion of one order stands in another order of the same promotions. */
  lemma SplitAtLast(a: seq<Promotion>, b: seq<Promotion>) returns (left: seq<Promotion>, right: seq<Promotion>)
    requires a != [] && multiset(a) == multiset(b)
    ensures b == left + [a[|a| - 1]] + right
    ensures multiset(a[..|a| - 1]) == multiset(left + right)
  {
    var front, last := a[..|a| - 1], a[|a| - 1];
    assert a == front + [last];
    assert last in multiset(a);
    assert last in b;
    var k :| 0 <= k < |b| && b[k] == last;
    left, right := b[..k], b[k + 1..];
    assert b == left + [last] + right;
    MultisetWithout(left, last, right);
    MultisetWithout(front, last, []);
    assert front + [last] + [] == a && front + [] == front;
  }

  lemma StableOrderIsPermutation(ps: seq<Promotion>, sorted: seq<Promotion>)
    requires StableOrder(ps, sorted)
    ensures multiset(ps) == multiset(sorted)
  {
    forall p: Promotion ensures multiset(ps)[p] == multiset(sorted)[p] {
      CountWithPriority(ps, p.priority, p);
      CountWithPriority(sorted, p.priority, p);
    }
  }

  predicate AllStackable(ps: seq<Promotion>) {
    forall p :: p in ps ==> p.stackable
  }

  /** When every promotion is stackable the total is the sum of all positive rule values, in any order. */
  lemma StackableTotal(ps: seq<Promotion>, context: Context, r: BonusResult)
    requires AllStackable(ps) && Result(ps, context, r)
    ensures r.totalAmount == GrandTotal(ps, context)
    ensures forall qs :: multiset(qs) == multiset(ps) ==> r.totalAmount == GrandTotal(qs, context)
  {
    hide GrandTotal, Breakdown, WithPriority, PromotionTotal;
    var sorted: seq<Promotion> :| StableOrder(ps, sorted) && IsBonus(sorted, context, r);
    StableOrderIsPermutation(ps, sorted);
    forall k | 0 <= k < |sorted| ensures sorted[k].stackable {
      assert sorted[k] in multiset(sorted);
      assert sorted[k] in ps;
    }
    var n: nat :| IsCutoff(sorted, context, n) && r.breakdown == Breakdown(sorted[..n], context);
    assert n == |sorted| && sorted[..n] == sorted;
    BreakdownSum(sorted, context);
    forall qs | multiset(qs) == multiset(ps) ensures r.totalAmount == GrandTotal(qs, context) {
      GrandTotalIgnoresOrder(qs, sorted, context);
    }
  }

  lemma {:induction false} PositiveSumMonotone(rules: seq<Rule>, context: Context, item: Item, n: nat)
    requires n <= |rules| && item.qty >= 0.0 && forall r :: r in rules ==> NonNegative(r)
    ensures PositiveSum(rules, context, n) <= PositiveSum(rules, context.(items := context.items + [item]), n)
  {
    hide Worth;
    if n > 0 {
      PositiveSumMonotone(rules, context, item, n - 1);
      ItemNeverLowersRule(rules[n - 1], context, item);
    }
  }

  predicate NeverNegative(ps: seq<Promotion>) {
    forall p :: p in ps ==> forall r :: r in p.rules ==> NonNegative(r)
  }

  lemma {:induction false} GrandTotalMonotone(ps: seq<Promotion>, context: Context, item: Item)
    requires item.qty >= 0.0 && NeverNegative(ps)
    ensures GrandTotal(ps, context) <= GrandTotal(ps, context.(items := context.items + [item]))
  {
    if ps != [] {
      var last := ps[|ps| - 1];
      assert last in ps;
      GrandTotalMonotone(ps[..|ps| - 1], context, item);
      PositiveSumMonotone(last.rules, context, item, |last.rules|);
    }
  }

  /** Under stackable promotions one more item on the receipt never lowers the bonus. */
  lemma ItemNeverLowersTotal(ps: seq<Promotion>, context: Context, item: Item, before: BonusResult, after: BonusResult)
    requires AllStackable(ps) && NeverNegative(ps) && item.qty >= 0.0
    requires Result(ps, context, before) && Result(ps, context.(items := context.items + [item]), after)
    ensures before.totalAmount <= after.totalAmount
  {
    StackableTotal(ps, context, before);
    StackableTotal(ps, context.(items := context.items + [item]), after);
    GrandTotalMonotone(ps, context, item);
  }
}
