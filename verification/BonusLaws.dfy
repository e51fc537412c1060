/** What each kind of rule pays and how promotions combine, said without the interpreter's own cases. */
module BonusLaws {
  import opened Wrappers
  import opened BonusRules
  import opened BonusEngine
  import Text

  // ---------------------------------------------------------------- the same items in another order

  function SumBy(items: seq<Item>, f: Item -> int): int {
    if items == [] then 0 else SumBy(items[..|items| - 1], f) + f(items[|items| - 1])
  }

  lemma {:induction false} SumByConcat(a: seq<Item>, b: seq<Item>, f: Item -> int)
    ensures SumBy(a + b, f) == SumBy(a, f) + SumBy(b, f)
  {
    if b == [] {
      assert a + b == a;
    } else {
      SumByConcat(a, b[..|b| - 1], f);
      assert (a + b)[..|a + b| - 1] == a + b[..|b| - 1];
    }
  }

  lemma SumByOne(item: Item, f: Item -> int)
    ensures SumBy([item], f) == f(item)
  {
    assert [item][..0] == [];
  }

  lemma MultisetWithout(left: seq<Item>, item: Item, right: seq<Item>)
    ensures multiset(left + right) == multiset(left + [item] + right) - multiset{item}
  {
  }

  /** Where the last item of one order stands in another order of the same items. */
  lemma SplitAtLast(a: seq<Item>, b: seq<Item>) returns (left: seq<Item>, right: seq<Item>)
    requires a != [] && multiset(a) == multiset(b)
    ensures b == left + [a[|a| - 1]] + right
    ensures multiset(a[..|a| - 1]) == multiset(left + right)
  {
    var front, last := a[..|a| - 1], a[|a| - 1];
    assert a == front + [last];
    assert last in multiset(a);
    assert last in b;
    var k :| 0 <= k < |b| && b[k] == last;
    left, right := b[..k], b[k + 1..];
    assert b == left + [last] + right;
    MultisetWithout(left, last, right);
    MultisetWithout(front, last, []);
    assert front + [last] + [] == a && front + [] == front;
  }

  lemma {:induction false} SumByIgnoresOrder(a: seq<Item>, b: seq<Item>, f: Item -> int)
    requires multiset(a) == multiset(b)
    ensures SumBy(a, f) == SumBy(b, f)
  {
    assert |multiset(a)| == |a| && |multiset(b)| == |b|;
    if a != [] {
      var front, last := a[..|a| - 1], a[|a| - 1];
      var left, right := SplitAtLast(a, b);
      SumByIgnoresOrder(front, left + right, f);
      assert a == front + [last];
      hide SumBy;
      SumByConcat(left, [last], f);
      SumByConcat(left + [last], right, f);
      SumByConcat(left, right, f);
      SumByConcat(front, [last], f);
    }
  }

  // ---------------------------------------------------------------- flat_per_receipt

  /** One amount for the receipt, whatever is on it and however many came before. */
  lemma FlatPerReceiptIsFlat(amount: int, a: Context, b: Context)
    ensures Worth(FlatPerReceipt(amount), a) == Worth(FlatPerReceipt(amount), b)
    ensures amount >= 0 ==> Worth(FlatPerReceipt(amount), a) == amount
    ensures amount < 0 ==> Worth(FlatPerReceipt(amount), a) == 0
  {
  }

  lemma UnknownPaysNothing(kind: string, context: Context)
    ensures Worth(UnknownRule(kind), context) == 0
  {
  }

  // ---------------------------------------------------------------- flat_per_item

  /** The positions of the items that one of the SKUs has been matched to. */
  function Positions(items: seq<Item>, skuIds: set<int>): set<nat> {
    set k: nat | k < |items| && items[k].sku.Some? && items[k].sku.value in skuIds
  }

  lemma {:induction false} CountIsPositions(items: seq<Item>, skuIds: set<int>)
    ensures MatchCount(items, skuIds) == |Positions(items, skuIds)|
  {
    if items != [] {
      var n := |items| - 1;
      CountIsPositions(items[..n], skuIds);
      var here := if items[n].sku.Some? && items[n].sku.value in skuIds then {n} else {};
      assert Positions(items, skuIds) == Positions(items[..n], skuIds) + here;
      assert n !in Positions(items[..n], skuIds);
    }
  }

  /** The amount once per matched item; a rule with a negative amount or without SKUs pays nothing. */
  lemma FlatPerItemCounts(skuIds: set<int>, amount: int, context: Context)
    ensures amount >= 0 ==>
      Worth(FlatPerItem(skuIds, amount), context) == amount * |Positions(context.items, skuIds)|
    ensures amount <= 0 || skuIds == {} ==> Worth(FlatPerItem(skuIds, amount), context) == 0
  {
    CountIsPositions(context.items, skuIds);
    if skuIds == {} {
      assert Positions(context.items, skuIds) == {};
    }
  }

  lemma {:induction false} CountAsSum(items: seq<Item>, skuIds: set<int>)
    ensures MatchCount(items, skuIds)
         == SumBy(items, (i: Item) => if i.sku.Some? && i.sku.value in skuIds then 1 else 0)
  {
    if items != [] {
      CountAsSum(items[..|items| - 1], skuIds);
    }
  }

  lemma FlatPerItemIgnoresOrder(skuIds: set<int>, amount: int, a: Context, b: Context)
    requires multiset(a.items) == multiset(b.items)
    ensures Worth(FlatPerItem(skuIds, amount), a) == Worth(FlatPerItem(skuIds, amount), b)
  {
    CountAsSum(a.items, skuIds);
    CountAsSum(b.items, skuIds);
    SumByIgnoresOrder(a.items, b.items, (i: Item) => if i.sku.Some? && i.sku.value in skuIds then 1 else 0);
  }

  // ---------------------------------------------------------------- by_sku

  lemma {:induction false} NoLeadingZero(n: nat)
    ensures Text.Decimal(n)[0] == '0' ==> n == 0
  {
    if n >= 10 {
      NoLeadingZero(n / 10);
      assert Text.Decimal(n)[0] == Text.Decimal(n / 10)[0];
    }
  }

  /** The key of a SKU is its decimal: it reads back as the SKU, and it is written without leading zeros. */
  lemma KeyReadsBack(sku: int)
    ensures Text.PyInt(Key(sku)) == Some(sku)
    ensures sku > 0 ==> Key(sku)[0] != '0' && Text.IsDigit(Key(sku)[0])
    ensures sku == 0 ==> Key(sku) == "0"
    ensures sku < 0 ==> Key(sku)[0] == '-' && Key(sku)[1] != '0'
  {
    hide Text.PyInt, Text.Decimal, Text.Value;
    if sku < 0 {
      Text.PyIntOfMinusDigits(Text.Decimal(-sku));
      NoLeadingZero(-sku);
    } else {
      Text.PyIntOfDigits(Text.Decimal(sku));
      NoLeadingZero(sku);
      ZeroIsOneDigit();
    }
  }

  lemma ZeroIsOneDigit()
    ensures Text.Decimal(0) == "0"
  {
  }

  /** So no two SKUs share a bonus by accident. */
  lemma KeysDiffer(a: int, b: int)
    requires Key(a) == Key(b)
    ensures a == b
  {
    hide Key;
    KeyReadsBack(a);
    KeyReadsBack(b);
  }

  /** One more item adds the bonus listed under the decimal of its SKU, and nothing without a SKU or a listing. */
  lemma BySkuItem(bonuses: map<string, int>, items: seq<Item>, item: Item, count: int)
    ensures Worth(BySku(bonuses), Context([], count)) == 0
    ensures
      var more := Worth(BySku(bonuses), Context(items + [item], count)) - Worth(BySku(bonuses), Context(items, count));
      && (item.sku.None? ==> more == 0)
      && (item.sku.Some? ==> more == if Key(item.sku.value) in bonuses then bonuses[Key(item.sku.value)] else 0)
  {
    hide Key;
    assert (items + [item])[..|items|] == items;
  }

  lemma {:induction false} SkuTotalAsSum(items: seq<Item>, bonuses: map<string, int>)
    ensures SkuTotal(items, bonuses) == SumBy(items, (i: Item) => SkuBonus(bonuses, i))
  {
    if items != [] {
      SkuTotalAsSum(items[..|items| - 1], bonuses);
    }
  }

  lemma BySkuIgnoresOrder(bonuses: map<string, int>, a: Context, b: Context)
    requires multiset(a.items) == multiset(b.items)
    ensures Worth(BySku(bonuses), a) == Worth(BySku(bonuses), b)
  {
    SkuTotalAsSum(a.items, bonuses);
    SkuTotalAsSum(b.items, bonuses);
    SumByIgnoresOrder(a.items, b.items, (i: Item) => SkuBonus(bonuses, i));
  }

  // ---------------------------------------------------------------- by_quantity_tier

  /** The quantity that is compared with the tiers adds up the matched items and ignores the others. */
  lemma TierQuantity(skuIds: set<int>, items: seq<Item>, item: Item)
    ensures MatchQty([], skuIds) == 0.0
    ensures MatchQty(items + [item], skuIds) - MatchQty(items, skuIds)
         == if item.sku.Some? && item.sku.value in skuIds then item.qty else 0.0
  {
    assert (items + [item])[..|items|] == items;
  }

  /** The rule pays the best reached tier: no reached tier pays more, and what it pays is one of them or nothing. */
  lemma TierRulePaysBest(skuIds: set<int>, tiers: seq<Tier>, context: Context)
    requires skuIds != {}
    ensures
      var w, qty := Worth(ByQuantityTier(skuIds, tiers), context), MatchQty(context.items, skuIds);
      && w >= 0
      && (forall k :: 0 <= k < |tiers| && tiers[k].qty as real <= qty ==> tiers[k].bonus <= w)
      && (w > 0 ==> exists k :: 0 <= k < |tiers| && tiers[k].qty as real <= qty && tiers[k].bonus == w)
  {
  }

  lemma TierRuleNeedsSkus(tiers: seq<Tier>, context: Context)
    ensures Worth(ByQuantityTier({}, tiers), context) == 0
  {
  }

  // ---------------------------------------------------------------- first_n_receipts

  /** What the rule pays a seller over the first m receipts. */
  function PaidOver(n: int, amount: int, items: seq<Item>, m: nat): int {
    if m == 0 then 0
    else PaidOver(n, amount, items, m - 1) + Worth(FirstNReceipts(n, amount), Context(items, m - 1))
  }

  /** Exactly n receipts are paid: the amount times the smaller of n and m. */
  lemma {:induction false} FirstNPaysN(n: int, amount: int, items: seq<Item>, m: nat)
    ensures PaidOver(n, amount, items, m)
         == (if amount < 0 then 0 else amount) * (if n < 0 then 0 else if n < m then n else m)
  {
    if m > 0 {
      FirstNPaysN(n, amount, items, m - 1);
      var pay: nat := if amount < 0 then 0 else amount;
      if n >= m {
        OneMore(pay, m - 1);
      }
    }
  }

  lemma OneMore(pay: nat, m: nat)
    ensures pay * (m + 1) == pay * m + pay
  {
  }

  // ---------------------------------------------------------------- how promotions combine

  /** A promotion's entries are its positive rule values, each with its own rule's number. */
  lemma {:induction false} EntriesAreRules(p: Promotion, context: Context, n: nat, e: Applied)
    requires n <= |p.rules|
    ensures e in AppliedRules(p, context, n) <==>
      && e.ruleIndex < n && e.promotionId == p.id
      && e.amount == Worth(p.rules[e.ruleIndex], context) && e.amount > 0
  {
    hide Worth;
    if n > 0 {
      EntriesAreRules(p, context, n - 1, e);
    }
  }

  predicate RuleOrder(es: seq<Applied>) {
    forall i, j :: 0 <= i < j < |es| ==> es[i].ruleIndex < es[j].ruleIndex
  }

  /** They stand in rule order, so none is repeated. */
  lemma {:induction false} EntriesAreOrdered(p: Promotion, context: Context, n: nat)
    requires n <= |p.rules|
    ensures RuleOrder(AppliedRules(p, context, n))
  {
    hide Worth;
    if n > 0 {
      EntriesAreOrdered(p, context, n - 1);
      var before := AppliedRules(p, context, n - 1);
      forall i | 0 <= i < |before| ensures before[i].ruleIndex < n - 1 {
        assert before[i] in before;
        EntriesAreRules(p, context, n - 1, before[i]);
      }
    }
  }

  /** None of its rules pays anything. */
  predicate Worthless(p: Promotion, context: Context) {
    forall k :: 0 <= k < |p.rules| ==> Worth(p.rules[k], context) <= 0
  }

  lemma {:induction false} WorthlessHasNoEntries(p: Promotion, context: Context, n: nat)
    requires Worthless(p, context) && n <= |p.rules|
    ensures AppliedRules(p, context, n) == []
  {
    if n > 0 {
      WorthlessHasNoEntries(p, context, n - 1);
    }
  }

  lemma {:induction false} EntriesAddUp(p: Promotion, context: Context, n: nat)
    requires n <= |p.rules|
    ensures AmountSum(AppliedRules(p, context, n)) >= 0
    ensures (exists k :: 0 <= k < n && Worth(p.rules[k], context) > 0) ==> AmountSum(AppliedRules(p, context, n)) > 0
  {
    hide Worth, AmountSum;
    NoAmount();
    if n > 0 {
      EntriesAddUp(p, context, n - 1);
      var before, amount := AppliedRules(p, context, n - 1), Worth(p.rules[n - 1], context);
      AmountAppend(before, Applied(p.id, n - 1, amount));
      assert before + [] == before;
    }
  }

  lemma NoAmount()
    ensures AmountSum([]) == 0
  {
  }

  lemma AmountAppend(xs: seq<Applied>, x: Applied)
    ensures AmountSum(xs + [x]) == AmountSum(xs) + x.amount
  {
    assert (xs + [x])[..|xs|] == xs;
  }

  /** A promotion ends the chain exactly when it is not stackable and some rule of it pays. */
  lemma StopsIff(p: Promotion, context: Context)
    ensures Stops(p, context) <==> !p.stackable && !Worthless(p, context)
  {
    hide Worth;
    EntriesAddUp(p, context, |p.rules|);
    if Worthless(p, context) {
      WorthlessHasNoEntries(p, context, |p.rules|);
    }
  }

  lemma {:induction false} BreakdownConcat(a: seq<Promotion>, b: seq<Promotion>, context: Context)
    ensures Breakdown(a + b, context) == Breakdown(a, context) + Breakdown(b, context)
  {
    hide AllApplied;
    if b == [] {
      assert a + b == a;
    } else {
      BreakdownConcat(a, b[..|b| - 1], context);
      assert (a + b)[..|a + b| - 1] == a + b[..|b| - 1];
    }
  }

  /** Nothing in the list ends the chain. */
  predicate RunsThrough(ps: seq<Promotion>, context: Context) {
    forall k :: 0 <= k < |ps| ==> ps[k].stackable || Worthless(ps[k], context)
  }

  /** When nothing ends the chain, every promotion's entries are in the result, in order. */
  lemma WholeChainCounts(ps: seq<Promotion>, context: Context, r: BonusResult)
    requires RunsThrough(ps, context)
    ensures IsBonus(ps, context, r)
      <==> r.breakdown == Breakdown(ps, context) && r.totalAmount == AmountSum(r.breakdown)
  {
    hide Breakdown, AmountSum, Worthless, Stops;
    forall k | 0 <= k < |ps| ensures !Stops(ps[k], context) {
      StopsIff(ps[k], context);
    }
    assert ps[..|ps|] == ps;
    assert IsCutoff(ps, context, |ps|);
    forall n: nat | IsCutoff(ps, context, n) ensures n == |ps| {
      CutoffUnique(ps, context, n, |ps|);
    }
  }

  /** The first promotion that is not stackable and pays is the last that counts; what follows is as if absent. */
  lemma ChainEndsThere(before: seq<Promotion>, p: Promotion, after: seq<Promotion>, context: Context, r: BonusResult)
    requires RunsThrough(before, context) && !p.stackable && !Worthless(p, context)
    ensures IsBonus(before + [p] + after, context, r)
      <==> r.breakdown == Breakdown(before, context) + AllApplied(p, context) && r.totalAmount == AmountSum(r.breakdown)
  {
    hide Breakdown, AmountSum, AllApplied, Worthless, Stops;
    var ps, n := before + [p] + after, |before| + 1;
    forall k | 0 <= k < |before| ensures !Stops(ps[k], context) {
      StopsIff(before[k], context);
    }
    StopsIff(p, context);
    assert ps[n - 1] == p && ps[..n] == before + [p];
    assert IsCutoff(ps, context, n);
    BreakdownConcat(before, [p], context);
    BreakdownOfOne(p, context);
    forall m: nat | IsCutoff(ps, context, m) ensures m == n {
      CutoffUnique(ps, context, m, n);
    }
  }

  lemma BreakdownOfOne(p: Promotion, context: Context)
    ensures Breakdown([p], context) == AllApplied(p, context)
  {
    hide AllApplied;
    assert [p][..0] == [];
    assert [] + AllApplied(p, context) == AllApplied(p, context);
  }

  /** Of two promotions the one with the higher priority comes first, and of equals the one given first. */
  lemma HigherPriorityFirst(p: Promotion, q: Promotion)
    ensures p.priority >= q.priority ==> SortByPriority([p, q]) == [p, q]
    ensures p.priority < q.priority ==> SortByPriority([p, q]) == [q, p]
  {
    assert [p, q][1..] == [q] && [q][1..] == [];
    assert SortByPriority([q]) == [q];
    assert InsertPromotion(p, []) == [p];
    assert InsertPromotion(p, [q])
        == if p.priority >= q.priority then [p] + [q] else [q] + InsertPromotion(p, [q][1..]);
  }

  /** So an exclusive promotion that pays shuts out every promotion of lower priority, wherever it is listed. */
  lemma ExclusiveShutsOutLower(p: Promotion, q: Promotion, context: Context, r: BonusResult)
    requires p.priority > q.priority && !p.stackable && !Worthless(p, context)
    requires IsBonus(SortByPriority([q, p]), context, r) || IsBonus(SortByPriority([p, q]), context, r)
    ensures r.breakdown == AllApplied(p, context)
  {
    hide AllApplied, Worthless, IsBonus, AmountSum, SortByPriority;
    HigherPriorityFirst(p, q);
    HigherPriorityFirst(q, p);
    ChainEndsThere([], p, [q], context, r);
    assert [] + [p] + [q] == [p, q];
    assert Breakdown([], context) == [];
  }
}
