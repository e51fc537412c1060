/**
 What the ledger and the outbox say about the payout table, and the proof that every
 service call, run on its own, keeps it so.
 */
module Books {
  import opened Wrappers
  import opened Ledger
  import opened Payouts

  /** The (old, new) amounts announced for one request, oldest first. */
  function ChangesOf(outbox: seq<Notice>, id: nat): seq<(int, int)> {
    if outbox == [] then []
    else
      var last := outbox[|outbox| - 1];
      ChangesOf(outbox[..|outbox| - 1], id) + if last.request == id then [(last.oldAmount, last.amount)] else []
  }

  /** An unbroken chain of real changes that leads from `first` to `final`. */
  predicate Linked(first: int, changes: seq<(int, int)>, final: int) {
    if changes == [] then first == final
    else
      var last := changes[|changes| - 1];
      last.1 == final && last.0 != last.1 && Linked(first, changes[..|changes| - 1], last.0)
  }

  /** The hold rows a chain must have left behind: one for the creation, one per change. */
  function Trail(first: int, changes: seq<(int, int)>): seq<int> {
    if changes == [] then [-first]
    else
      var last := changes[|changes| - 1];
      Trail(first, changes[..|changes| - 1]) + [-(last.1 - last.0)]
  }

  /** The rows of one request match its status and amount, given the amount it was created with. */
  predicate Story(
    p: PayoutRequest, first: int, changes: seq<(int, int)>, holds: seq<int>, completed: seq<int>, reverted: seq<int>)
  {
    && Linked(first, changes, p.amount)
    && holds == Trail(first, changes)
    && completed == (if p.status.Paid? then [-p.amount] else [])
    && reverted == (if p.status.Rejected? then [p.amount] else [])
  }

  ghost predicate Explained(db: Database, id: nat, first: int)
    requires id in db.payouts
  {
    Story(
      db.payouts[id],
      first,
      ChangesOf(db.outbox, id),
      AmountsOf(db.ledger, PayoutHold, id),
      AmountsOf(db.ledger, PayoutCompleted, id),
      AmountsOf(db.ledger, PayoutReverted, id))
  }

  ghost predicate Accounted(db: Database, id: nat) {
    if id in db.payouts then db.payouts[id].amount > 0 && exists first :: Explained(db, id, first)
    else
      && ChangesOf(db.outbox, id) == []
      && AmountsOf(db.ledger, PayoutHold, id) == []
      && AmountsOf(db.ledger, PayoutCompleted, id) == []
      && AmountsOf(db.ledger, PayoutReverted, id) == []
  }

  datatype Pick = All | PaidOnly | RejectedOnly

  predicate Picked(p: PayoutRequest, pick: Pick) {
    match pick
    case All => true
    case PaidOnly => p.status.Paid?
    case RejectedOnly => p.status.Rejected?
  }

  function Share(payouts: map<nat, PayoutRequest>, id: nat, seller: int, pick: Pick): int {
    if id in payouts && payouts[id].seller == seller && Picked(payouts[id], pick) then payouts[id].amount else 0
  }

  /** The amounts of one seller's picked requests among the first n keys. */
  function Total(payouts: map<nat, PayoutRequest>, seller: int, pick: Pick, n: nat): int {
    if n == 0 then 0 else Total(payouts, seller, pick, n - 1) + Share(payouts, n - 1, seller, pick)
  }

  /** The fold over the ledger agrees with the payout table. */
  ghost predicate Totalled(db: Database, n: nat, seller: int) {
    && SumOf(db.ledger, seller, {PayoutHold}) == -Total(db.payouts, seller, All, n)
    && SumOf(db.ledger, seller, {PayoutCompleted}) == -Total(db.payouts, seller, PaidOnly, n)
    && SumOf(db.ledger, seller, AVAILABLE_ACCRUAL_KINDS)
       == SumOf(db.ledger, seller, TOTAL_ACCRUED_KINDS) + Total(db.payouts, seller, RejectedOnly, n)
  }

  /** `n` is the next value of the key sequence. */
  ghost predicate Balanced(db: Database, n: nat) {
    && (forall id :: id in db.payouts ==> id < n)
    && (forall id: nat :: Accounted(db, id))
    && (forall seller :: Totalled(db, n, seller))
  }

  // ---------------------------------------------------------------- small facts

  lemma ChangesAppend(outbox: seq<Notice>, m: Notice, id: nat)
    ensures ChangesOf(outbox + [m], id)
         == ChangesOf(outbox, id) + if m.request == id then [(m.oldAmount, m.amount)] else []
  {
    assert (outbox + [m])[..|outbox|] == outbox;
  }

  /** Changing one request moves the total by the difference of its shares. */
  lemma {:induction false} TotalUpdate(
    payouts: map<nat, PayoutRequest>, id: nat, p: PayoutRequest, seller: int, pick: Pick, n: nat)
    ensures Total(payouts[id := p], seller, pick, n)
         == Total(payouts, seller, pick, n)
            + if id < n then Share(payouts[id := p], id, seller, pick) - Share(payouts, id, seller, pick) else 0
  {
    if n > 0 {
      TotalUpdate(payouts, id, p, seller, pick, n - 1);
    }
  }

  /** Keys that are not in the table add nothing. */
  lemma {:induction false} TotalGrow(payouts: map<nat, PayoutRequest>, seller: int, pick: Pick, n: nat, m: nat)
    requires n <= m
    requires forall id :: id in payouts ==> id < n
    ensures Total(payouts, seller, pick, m) == Total(payouts, seller, pick, n)
  {
    if n < m {
      TotalGrow(payouts, seller, pick, n, m - 1);
    }
  }

  lemma TotalsSplit(payouts: map<nat, PayoutRequest>, seller: int, n: nat)
    requires forall id :: id in payouts ==> payouts[id].amount > 0
    ensures Total(payouts, seller, RejectedOnly, n) >= 0 && Total(payouts, seller, PaidOnly, n) >= 0
    ensures Total(payouts, seller, RejectedOnly, n) <= Total(payouts, seller, All, n)
  {
  }

  /** A chain from `first` to `final` leaves hold rows that add up to minus the final amount. */
  lemma {:induction false} TrailSum(first: int, changes: seq<(int, int)>, final: int)
    requires Linked(first, changes, final)
    ensures Sum(Trail(first, changes)) == -final
    ensures |Trail(first, changes)| == |changes| + 1 && Trail(first, changes)[0] == -first
  {
    if changes == [] {
      assert Trail(first, changes)[..0] == [];
    } else {
      var k := |changes| - 1;
      var before := Trail(first, changes[..k]);
      TrailSum(first, changes[..k], changes[k].0);
      assert (before + [-(changes[k].1 - changes[k].0)])[..|before|] == before;
    }
  }

  /** In an unbroken chain each announced old amount is the previous new amount. */
  lemma {:induction false} LinkedSteps(first: int, changes: seq<(int, int)>, final: int)
    requires Linked(first, changes, final)
    ensures changes != [] ==> changes[0].0 == first && changes[|changes| - 1].1 == final
    ensures changes == [] ==> first == final
    ensures forall i :: 0 <= i < |changes| ==> changes[i].0 != changes[i].1
    ensures forall i :: 0 < i < |changes| ==> changes[i].0 == changes[i - 1].1
  {
    if changes != [] {
      var k := |changes| - 1;
      LinkedSteps(first, changes[..k], changes[k].0);
      assert forall i :: 0 <= i < k ==> changes[..k][i] == changes[i];
    }
  }

  // ---------------------------------------------------------------- one write set

  /** The ledger row a write set carries fits the change it makes to the payout table. */
  ghost predicate Fits(db: Database, w: Writes) {
    w.Writes? ==>
      && w.payout.amount > 0
      && (w.row.Some? ==> w.row.value.source == Payout(w.id) && w.row.value.seller == w.payout.seller)
      && (if w.id !in db.payouts then
            && w.payout.status.New?
            && w.row.Some? && w.row.value.kind == PayoutHold && w.row.value.amount == -w.payout.amount
            && w.notice.None?
          else
            var p := db.payouts[w.id];
            && p.seller == w.payout.seller
            && (match w.row
                case None =>
                  && w.notice.None? && w.payout.amount == p.amount
                  && (w.payout.status == p.status || (p.status.New? && w.payout.status.InProgress?))
                case Some(r) =>
                  && Open(p.status)
                  && if r.kind.PayoutHold? then
                       && w.payout.status == p.status && w.payout.amount != p.amount
                       && r.amount == -(w.payout.amount - p.amount)
                       && w.notice.Some? && w.notice.value.request == w.id
                       && w.notice.value.oldAmount == p.amount && w.notice.value.amount == w.payout.amount
                     else
                       && w.notice.None? && w.payout.amount == p.amount
                       && ((r.kind.PayoutCompleted? && w.payout.status.Paid? && r.amount == -p.amount)
                           || (r.kind.PayoutReverted? && w.payout.status.Rejected? && r.amount == p.amount))))
  }

  lemma DecideFits(db: Database, op: Op, id: nat)
    requires WellFormed(op) && id !in db.payouts
    requires Decide(db, op, id).Success?
    requires forall k :: k in db.payouts ==> db.payouts[k].amount > 0
    ensures Fits(db, Decide(db, op, id).value)
  {
  }

  function RowAmounts(w: Writes, kind: Kind, id: nat): seq<int> {
    if w.Writes? && w.row.Some? && w.row.value.kind == kind && w.row.value.source == Payout(id)
    then [w.row.value.amount]
    else []
  }

  function NoticeChanges(w: Writes, id: nat): seq<(int, int)> {
    if w.Writes? && w.notice.Some? && w.notice.value.request == id
    then [(w.notice.value.oldAmount, w.notice.value.amount)]
    else []
  }

  lemma ApplyRows(db: Database, w: Writes, id: nat)
    ensures forall kind: Kind ::
      AmountsOf(Apply(db, w).ledger, kind, id) == AmountsOf(db.ledger, kind, id) + RowAmounts(w, kind, id)
    ensures ChangesOf(Apply(db, w).outbox, id) == ChangesOf(db.outbox, id) + NoticeChanges(w, id)
  {
    if w.Writes? && w.row.Some? {
      forall kind: Kind
        ensures AmountsOf(Apply(db, w).ledger, kind, id) == AmountsOf(db.ledger, kind, id) + RowAmounts(w, kind, id)
      {
        AmountsAppend(db.ledger, w.row.value, kind, id);
      }
    }
    if w.Writes? && w.notice.Some? {
      ChangesAppend(db.outbox, w.notice.value, id);
    }
  }

  /** A fitting write set continues the story of the request it writes. */
  lemma StoryGoesOn(
    db: Database, w: Writes, first: int, changes: seq<(int, int)>,
    holds: seq<int>, completed: seq<int>, reverted: seq<int>)
    requires Fits(db, w) && w.Writes? && w.id in db.payouts
    requires Story(db.payouts[w.id], first, changes, holds, completed, reverted)
    ensures Story(
      w.payout,
      first,
      changes + NoticeChanges(w, w.id),
      holds + RowAmounts(w, PayoutHold, w.id),
      completed + RowAmounts(w, PayoutCompleted, w.id),
      reverted + RowAmounts(w, PayoutReverted, w.id))
  {
    var change := NoticeChanges(w, w.id);
    if change != [] {
      assert (changes + change)[..|changes|] == changes;
    } else {
      assert changes + change == changes;
    }
  }

  lemma FitsAccounted(db: Database, w: Writes, id: nat)
    requires Accounted(db, id) && Fits(db, w)
    ensures Accounted(Apply(db, w), id)
  {
    ApplyRows(db, w, id);
    if !w.Writes? || w.id != id {
      OthersUntouched(db, w, id);
    } else if id in db.payouts {
      var first :| Explained(db, id, first);
      StoryGoesOn(db, w, first, ChangesOf(db.outbox, id), AmountsOf(db.ledger, PayoutHold, id),
        AmountsOf(db.ledger, PayoutCompleted, id), AmountsOf(db.ledger, PayoutReverted, id));
      assert Explained(Apply(db, w), id, first);
    } else {
      assert Story(w.payout, w.payout.amount, [], [-w.payout.amount], [], []);
      assert Explained(Apply(db, w), id, w.payout.amount);
    }
  }

  lemma OthersUntouched(db: Database, w: Writes, id: nat)
    requires Accounted(db, id) && Fits(db, w) && (w.Writes? ==> w.id != id)
    ensures Accounted(Apply(db, w), id)
  {
    ApplyRows(db, w, id);
    assert ChangesOf(db.outbox, id) + [] == ChangesOf(db.outbox, id);
    assert AmountsOf(db.ledger, PayoutHold, id) + [] == AmountsOf(db.ledger, PayoutHold, id);
    if id in db.payouts {
      var first :| Explained(db, id, first);
      assert Explained(Apply(db, w), id, first);
    }
  }

  function RowShare(w: Writes, seller: int, kinds: set<Kind>): int {
    if w.Writes? && w.row.Some? && w.row.value.seller == seller && w.row.value.kind in kinds
    then w.row.value.amount
    else 0
  }

  lemma ApplySum(db: Database, w: Writes, seller: int, kinds: set<Kind>)
    ensures SumOf(Apply(db, w).ledger, seller, kinds) == SumOf(db.ledger, seller, kinds) + RowShare(w, seller, kinds)
  {
    if w.Writes? && w.row.Some? {
      SumAppend(db.ledger, w.row.value, seller, kinds);
    }
  }

  lemma ApplyTotal(db: Database, w: Writes, seller: int, pick: Pick, n: nat, n': nat)
    requires n <= n' && (forall id :: id in db.payouts ==> id < n) && (w.Writes? ==> w.id < n')
    ensures Total(Apply(db, w).payouts, seller, pick, n')
         == Total(db.payouts, seller, pick, n)
            + if w.Writes? then Share(Apply(db, w).payouts, w.id, seller, pick) - Share(db.payouts, w.id, seller, pick)
              else 0
  {
    TotalGrow(db.payouts, seller, pick, n, n');
    if w.Writes? {
      TotalUpdate(db.payouts, w.id, w.payout, seller, pick, n');
    }
  }

  lemma FitsTotalled(db: Database, w: Writes, n: nat, n': nat, seller: int)
    requires Totalled(db, n, seller) && Fits(db, w) && n <= n'
    requires (forall id :: id in db.payouts ==> id < n) && (w.Writes? ==> w.id < n')
    ensures Totalled(Apply(db, w), n', seller)
  {
    hide SumOf, Total;
    ApplySum(db, w, seller, {PayoutHold});
    ApplySum(db, w, seller, {PayoutCompleted});
    ApplySum(db, w, seller, AVAILABLE_ACCRUAL_KINDS);
    ApplySum(db, w, seller, TOTAL_ACCRUED_KINDS);
    ApplyTotal(db, w, seller, All, n, n');
    ApplyTotal(db, w, seller, PaidOnly, n, n');
    ApplyTotal(db, w, seller, RejectedOnly, n, n');
  }

  /** A fitting write set, once committed, keeps the books. */
  lemma FitsKeepsBooks(db: Database, w: Writes, n: nat, n': nat)
    requires Balanced(db, n) && Fits(db, w) && n <= n'
    requires w.Writes? ==> w.id < n'
    ensures Balanced(Apply(db, w), n')
  {
    forall id: nat ensures Accounted(Apply(db, w), id) {
      assert Accounted(db, id);
      FitsAccounted(db, w, id);
    }
    forall seller ensures Totalled(Apply(db, w), n', seller) {
      assert Totalled(db, n, seller);
      FitsTotalled(db, w, n, n', seller);
    }
  }

  lemma BelowNextId(db: Database, n: nat)
    requires Balanced(db, n)
    ensures n !in db.payouts
  {
  }

  /** Every call that succeeds keeps the books. */
  lemma PerformKeepsBooks(db: Database, op: Op, id: nat, n: nat, n': nat)
    requires Balanced(db, n) && WellFormed(op) && n <= n' && id !in db.payouts
    requires op.Create? ==> id < n'
    ensures Perform(db, op, id).Success? ==> Balanced(Perform(db, op, id).value, n')
  {
    if Perform(db, op, id).Success? {
      forall k | k in db.payouts ensures db.payouts[k].amount > 0 {
        assert Accounted(db, k);
      }
      DecideFits(db, op, id);
      FitsKeepsBooks(db, Decide(db, op, id).value, n, n');
    }
  }

  /** The rows written outside the payout service: accruals and corrections. */
  predicate External(r: Row) {
    r.kind in TOTAL_ACCRUED_KINDS
  }

  lemma ExternalKeepsBooks(db: Database, r: Row, n: nat)
    requires Balanced(db, n) && External(r)
    ensures Balanced(db.(ledger := db.ledger + [r]), n)
  {
    hide Accounted, Totalled;
    var db' := db.(ledger := db.ledger + [r]);
    forall id: nat ensures Accounted(db', id) {
      ExternalAccounted(db, r, id);
    }
    forall seller ensures Totalled(db', n, seller) {
      ExternalTotalled(db, r, n, seller);
    }
  }

  lemma ExternalAccounted(db: Database, r: Row, id: nat)
    requires Accounted(db, id) && External(r)
    ensures Accounted(db.(ledger := db.ledger + [r]), id)
  {
    hide AmountsOf, Story;
    var db' := db.(ledger := db.ledger + [r]);
    forall kind: Kind | kind !in TOTAL_ACCRUED_KINDS
      ensures AmountsOf(db'.ledger, kind, id) == AmountsOf(db.ledger, kind, id)
    {
      AmountsAppend(db.ledger, r, kind, id);
      assert AmountsOf(db.ledger, kind, id) + [] == AmountsOf(db.ledger, kind, id);
    }
    if id in db.payouts {
      var first :| Explained(db, id, first);
      assert Explained(db', id, first);
    }
  }

  lemma ExternalTotalled(db: Database, r: Row, n: nat, seller: int)
    requires Totalled(db, n, seller) && External(r)
    ensures Totalled(db.(ledger := db.ledger + [r]), n, seller)
  {
    hide SumOf, Total;
    SumAppend(db.ledger, r, seller, {PayoutHold});
    SumAppend(db.ledger, r, seller, {PayoutCompleted});
    SumAppend(db.ledger, r, seller, AVAILABLE_ACCRUAL_KINDS);
    SumAppend(db.ledger, r, seller, TOTAL_ACCRUED_KINDS);
  }

  // ---------------------------------------------------------------- what the books mean

  /** The hold rows of a request always add up to minus its amount, whatever edits it has seen. */
  lemma HoldsMatchAmount(db: Database, n: nat, id: nat)
    requires Balanced(db, n) && id in db.payouts
    ensures Sum(AmountsOf(db.ledger, PayoutHold, id)) == -db.payouts[id].amount
    ensures |AmountsOf(db.ledger, PayoutHold, id)| == |ChangesOf(db.outbox, id)| + 1
    ensures AmountsOf(db.ledger, PayoutCompleted, id)
         == (if db.payouts[id].status.Paid? then [-db.payouts[id].amount] else [])
    ensures AmountsOf(db.ledger, PayoutReverted, id)
         == (if db.payouts[id].status.Rejected? then [db.payouts[id].amount] else [])
  {
    assert Accounted(db, id);
    var first :| Explained(db, id, first);
    TrailSum(first, ChangesOf(db.outbox, id), db.payouts[id].amount);
  }

  /** The announced changes run without a gap from the creation amount to the current one. */
  lemma NoticesFormChain(db: Database, n: nat, id: nat)
    requires Balanced(db, n) && id in db.payouts
    ensures
      var changes := ChangesOf(db.outbox, id);
      var holds := AmountsOf(db.ledger, PayoutHold, id);
      && |holds| == |changes| + 1
      && (changes == [] ==> holds[0] == -db.payouts[id].amount)
      && (changes != [] ==> changes[0].0 == -holds[0] && changes[|changes| - 1].1 == db.payouts[id].amount)
      && (forall i :: 0 <= i < |changes| ==> changes[i].0 != changes[i].1)
      && (forall i :: 0 < i < |changes| ==> changes[i].0 == changes[i - 1].1)
  {
    assert Accounted(db, id);
    var first :| Explained(db, id, first);
    TrailSum(first, ChangesOf(db.outbox, id), db.payouts[id].amount);
    LinkedSteps(first, ChangesOf(db.outbox, id), db.payouts[id].amount);
  }

  /** The four SQL aggregates, read off the payout table instead of the ledger. */
  lemma BalanceRefinesTable(db: Database, n: nat, seller: int)
    requires Balanced(db, n)
    ensures
      var b := GetSellerBalance(db.ledger, seller);
      var live := Total(db.payouts, seller, All, n) - Total(db.payouts, seller, RejectedOnly, n);
      && b.totalAccrued == SumOf(db.ledger, seller, TOTAL_ACCRUED_KINDS)
      && b.available == b.totalAccrued - live
      && b.onHold == Total(db.payouts, seller, All, n)
      && b.totalPaidOut == Total(db.payouts, seller, PaidOnly, n)
  {
    assert Totalled(db, n, seller);
    forall id | id in db.payouts ensures db.payouts[id].amount > 0 {
      assert Accounted(db, id);
    }
    TotalsSplit(db.payouts, seller, n);
  }

  const EVERY_KIND: set<Kind> := AVAILABLE_ACCRUAL_KINDS + {PayoutHold, PayoutCompleted}

  lemma {:induction false} KindsSplit(rows: seq<Row>, seller: int)
    ensures SumOf(rows, seller, EVERY_KIND)
         == Available(rows, seller) + SumOf(rows, seller, {PayoutCompleted})
  {
    if rows != [] {
      KindsSplit(rows[..|rows| - 1], seller);
    }
  }

  /**
   The balance service's comment says that the sum of all rows never goes negative. A paid request
   counts twice in that sum, so it holds exactly while the seller has been paid no more than is
   still available.
   */
  lemma LedgerSumNonNegativeIff(db: Database, n: nat, seller: int)
    requires Balanced(db, n)
    ensures
      var b := GetSellerBalance(db.ledger, seller);
      SumOf(db.ledger, seller, EVERY_KIND) >= 0 <==> b.totalPaidOut <= b.available
  {
    KindsSplit(db.ledger, seller);
    BalanceRefinesTable(db, n, seller);
    assert Totalled(db, n, seller);
  }

  /**
   The same service documents on_hold as the amount locked in pending requests. It is that exactly
   while none of the seller's requests has been paid or rejected.
   */
  lemma OnHoldIsPendingIff(db: Database, n: nat, seller: int)
    requires Balanced(db, n)
    ensures
      var pending := Total(db.payouts, seller, All, n) - Total(db.payouts, seller, PaidOnly, n)
                     - Total(db.payouts, seller, RejectedOnly, n);
      GetSellerBalance(db.ledger, seller).onHold == pending
      <==> forall id :: id in db.payouts && db.payouts[id].seller == seller ==> Open(db.payouts[id].status)
  {
    forall id | id in db.payouts ensures db.payouts[id].amount > 0 {
      assert Accounted(db, id);
    }
    BalanceRefinesTable(db, n, seller);
    ClosedTotalZeroIff(db.payouts, seller, n);
  }

  lemma {:induction false} ClosedTotalZeroIff(payouts: map<nat, PayoutRequest>, seller: int, n: nat)
    requires forall id :: id in payouts ==> payouts[id].amount > 0
    ensures Total(payouts, seller, PaidOnly, n) + Total(payouts, seller, RejectedOnly, n) >= 0
    ensures Total(payouts, seller, PaidOnly, n) + Total(payouts, seller, RejectedOnly, n) == 0
      <==> forall id :: id in payouts && id < n && payouts[id].seller == seller ==> Open(payouts[id].status)
  {
    if n > 0 {
      ClosedTotalZeroIff(payouts, seller, n - 1);
    }
  }
}
