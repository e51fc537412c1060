/** One promotion rule evaluated against one receipt (bonus_engine/rule_interpreter.py). */
module BonusRules {
  import opened Wrappers
  import Text

  datatype Item = Item(qty: real, sku: Option<int>)

  /** receiptCount is the number of receipts of this seller approved before. */
  datatype Context = Context(items: seq<Item>, receiptCount: int)

  datatype Tier = Tier(qty: int, bonus: int)

  datatype Rule =
    | FlatPerReceipt(amount: int)
    | FlatPerItem(skuIds: set<int>, amount: int)
    | BySku(bonuses: map<string, int>)
    | ByQuantityTier(skuIds: set<int>, tiers: seq<Tier>)
    | FirstNReceipts(n: int, amount: int)
    | UnknownRule(kind: string)

  /** str(n), the JSON key of a SKU. */
  function Key(n: int): string {
    if n < 0 then "-" + Text.Decimal(-n) else Text.Decimal(n)
  }

  predicate Matches(item: Item, skuIds: set<int>) {
    item.sku.Some? && item.sku.value in skuIds
  }

  function SkuBonus(bonuses: map<string, int>, item: Item): int {
    if item.sku.Some? && Key(item.sku.value) in bonuses then bonuses[Key(item.sku.value)] else 0
  }

  function MatchCount(items: seq<Item>, skuIds: set<int>): nat {
    if items == [] then 0
    else MatchCount(items[..|items| - 1], skuIds) + if Matches(items[|items| - 1], skuIds) then 1 else 0
  }

  function SkuTotal(items: seq<Item>, bonuses: map<string, int>): int {
    if items == [] then 0 else SkuTotal(items[..|items| - 1], bonuses) + SkuBonus(bonuses, items[|items| - 1])
  }

  function MatchQty(items: seq<Item>, skuIds: set<int>): real {
    if items == [] then 0.0
    else
      var last := items[|items| - 1];
      MatchQty(items[..|items| - 1], skuIds) + if Matches(last, skuIds) then last.qty else 0.0
  }

  /** The bonus of the best tier reached, never below zero. */
  function BestTier(tiers: seq<Tier>, qty: real): (best: nat)
    ensures best == 0 || exists k :: 0 <= k < |tiers| && qty >= tiers[k].qty as real && tiers[k].bonus == best
    ensures forall k :: 0 <= k < |tiers| && qty >= tiers[k].qty as real ==> tiers[k].bonus <= best
  {
    if tiers == [] then 0
    else
      var last := tiers[|tiers| - 1];
      var before := BestTier(tiers[..|tiers| - 1], qty);
      if qty >= last.qty as real && last.bonus > before then last.bonus else before
  }

  function Positive(n: int): nat {
    if n > 0 then n else 0
  }

  /** What a rule is worth. */
  function Worth(rule: Rule, context: Context): int {
    match rule
    case FlatPerReceipt(amount) => Positive(amount)
    case FlatPerItem(skuIds, amount) => Positive(amount) * MatchCount(context.items, skuIds)
    case BySku(bonuses) => SkuTotal(context.items, bonuses)
    case ByQuantityTier(skuIds, tiers) => if skuIds == {} then 0 else BestTier(tiers, MatchQty(context.items, skuIds))
    case FirstNReceipts(n, amount) => if context.receiptCount < n && n > 0 then Positive(amount) else 0
    case UnknownRule(_) => 0
  }

  // ---------------------------------------------------------------- the handlers as they run

  method FlatPerItemBonus(skuIds: set<int>, amount: int, context: Context) returns (total: int)
    ensures total == Worth(FlatPerItem(skuIds, amount), context)
  {
    if skuIds == {} || amount <= 0 {
      NothingMatches(context.items, skuIds);
      return 0;
    }
    total := 0;
    for k := 0 to |context.items|
      invariant total == amount * MatchCount(context.items[..k], skuIds)
    {
      var item := context.items[k];
      assert context.items[..k + 1][..k] == context.items[..k];
      if item.sku.Some? && item.sku.value in skuIds {
        total := total + amount;
      }
    }
    assert context.items[..|context.items|] == context.items;
  }

  lemma {:induction false} NothingMatches(items: seq<Item>, skuIds: set<int>)
    ensures skuIds == {} ==> MatchCount(items, skuIds) == 0
  {
    if items != [] {
      NothingMatches(items[..|items| - 1], skuIds);
    }
  }

  method BySkuBonus(bonuses: map<string, int>, context: Context) returns (total: int)
    ensures total == Worth(BySku(bonuses), context)
  {
    total := 0;
    for k := 0 to |context.items|
      invariant total == SkuTotal(context.items[..k], bonuses)
    {
      var item := context.items[k];
      assert context.items[..k + 1][..k] == context.items[..k];
      if item.sku.Some? {
        var key := Key(item.sku.value);
        if key in bonuses {
          total := total + bonuses[key];
        }
      }
    }
    assert context.items[..|context.items|] == context.items;
  }

  predicate Ascending(tiers: seq<Tier>) {
    forall j, k :: 0 <= j < k < |tiers| ==> tiers[j].qty <= tiers[k].qty
  }

  /** The tiers by ascending quantity, ties in their given order. */
  function InsertTier(t: Tier, sorted: seq<Tier>): (r: seq<Tier>)
    ensures multiset(r) == multiset(sorted) + multiset{t}
  {
    if sorted == [] then [t]
    else if t.qty <= sorted[0].qty then [t] + sorted
    else
      assert sorted == [sorted[0]] + sorted[1..];
      [sorted[0]] + InsertTier(t, sorted[1..])
  }

  function SortTiers(tiers: seq<Tier>): (r: seq<Tier>)
    ensures multiset(r) == multiset(tiers)
  {
    if tiers == [] then []
    else
      assert tiers == [tiers[0]] + tiers[1..];
      InsertTier(tiers[0], SortTiers(tiers[1..]))
  }

  lemma {:induction false} InsertTierAscends(t: Tier, sorted: seq<Tier>)
    requires Ascending(sorted)
    ensures Ascending(InsertTier(t, sorted))
  {
    if sorted != [] && sorted[0].qty < t.qty {
      InsertTierAscends(t, sorted[1..]);
      var rest := InsertTier(t, sorted[1..]);
      forall k | 0 <= k < |rest| ensures sorted[0].qty <= rest[k].qty {
        assert rest[k] in multiset(sorted[1..]) + multiset{t};
        assert rest[k] in sorted[1..] || rest[k] == t;
      }
    }
  }

  lemma {:induction false} SortTiersAscends(tiers: seq<Tier>)
    ensures Ascending(SortTiers(tiers))
  {
    if tiers != [] {
      SortTiersAscends(tiers[1..]);
      InsertTierAscends(tiers[0], SortTiers(tiers[1..]));
    }
  }

  method QuantityTierBonus(skuIds: set<int>, tiers: seq<Tier>, context: Context) returns (best: int)
    ensures best == Worth(ByQuantityTier(skuIds, tiers), context)
  {
    hide BestTier, MatchQty, SortTiers;
    var sorted := SortTiers(tiers);
    TierOrderIrrelevant(sorted, tiers, MatchQty(context.items, skuIds));
    NoTier(MatchQty(context.items, skuIds));
    MatchQtyStep(context.items, 0, skuIds);
    if skuIds == {} || sorted == [] {
      return 0;
    }
    var qty := 0.0;
    for k := 0 to |context.items|
      invariant qty == MatchQty(context.items[..k], skuIds)
    {
      MatchQtyStep(context.items, k, skuIds);
      if Matches(context.items[k], skuIds) {
        qty := qty + context.items[k].qty;
      }
    }
    assert context.items[..|context.items|] == context.items;
    best := 0;
    for k := 0 to |sorted|
      invariant best == BestTier(sorted[..k], qty)
    {
      BestTierAppend(sorted[..k], sorted[k], qty);
      assert sorted[..k + 1] == sorted[..k] + [sorted[k]];
      if qty >= sorted[k].qty as real && sorted[k].bonus > best {
        best := sorted[k].bonus;
      }
    }
    assert sorted[..|sorted|] == sorted;
  }

  lemma NoTier(qty: real)
    ensures BestTier([], qty) == 0
  {
  }

  lemma BestTierAppend(tiers: seq<Tier>, t: Tier, qty: real)
    ensures BestTier(tiers + [t], qty)
         == if qty >= t.qty as real && t.bonus > BestTier(tiers, qty) then t.bonus else BestTier(tiers, qty)
  {
    assert (tiers + [t])[..|tiers|] == tiers;
  }

  lemma MatchQtyStep(items: seq<Item>, k: nat, skuIds: set<int>)
    ensures MatchQty(items[..0], skuIds) == 0.0
    ensures k < |items| ==>
      MatchQty(items[..k + 1], skuIds)
      == MatchQty(items[..k], skuIds) + if Matches(items[k], skuIds) then items[k].qty else 0.0
  {
    if k < |items| {
      assert items[..k + 1][..k] == items[..k];
    }
  }

  // ---------------------------------------------------------------- properties of the rules

  /** The best tier does not depend on the order the tiers are listed in. */
  lemma TierOrderIrrelevant(a: seq<Tier>, b: seq<Tier>, qty: real)
    requires multiset(a) == multiset(b)
    ensures BestTier(a, qty) == BestTier(b, qty)
  {
    BestTierAtMost(a, b, qty);
    BestTierAtMost(b, a, qty);
  }

  lemma BestTierAtMost(a: seq<Tier>, b: seq<Tier>, qty: real)
    requires multiset(a) == multiset(b)
    ensures BestTier(a, qty) <= BestTier(b, qty)
  {
    if BestTier(a, qty) != 0 {
      var k :| 0 <= k < |a| && qty >= a[k].qty as real && a[k].bonus == BestTier(a, qty);
      assert a[k] in multiset(a);
      assert a[k] in b;
      var l :| 0 <= l < |b| && b[l] == a[k];
    }
  }

  /** More quantity never earns a worse tier. */
  lemma TierMonotone(tiers: seq<Tier>, less: real, more: real)
    requires less <= more
    ensures BestTier(tiers, less) <= BestTier(tiers, more)
  {
    if BestTier(tiers, less) != 0 {
      var k :| 0 <= k < |tiers| && less >= tiers[k].qty as real && tiers[k].bonus == BestTier(tiers, less);
    }
  }

  /** By-SKU bonuses that never take away. */
  predicate NonNegative(rule: Rule) {
    rule.BySku? ==> forall key :: key in rule.bonuses ==> rule.bonuses[key] >= 0
  }

  /** Appending an item of non-negative quantity never makes such a rule worth less. */
  lemma ItemNeverLowersRule(rule: Rule, context: Context, item: Item)
    requires NonNegative(rule) && item.qty >= 0.0
    ensures Worth(rule, context) <= Worth(rule, context.(items := context.items + [item]))
  {
    assert (context.items + [item])[..|context.items|] == context.items;
    match rule
    case FlatPerItem(skuIds, amount) =>
      CountTimes(Positive(amount), MatchCount(context.items, skuIds), MatchCount(context.items + [item], skuIds));
    case ByQuantityTier(skuIds, tiers) =>
      TierMonotone(tiers, MatchQty(context.items, skuIds), MatchQty(context.items + [item], skuIds));
    case _ =>
  }

  lemma CountTimes(amount: nat, less: nat, more: nat)
    requires less <= more
    ensures amount * less <= amount * more
  {
  }
}
