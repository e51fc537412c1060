/** The results about payout schedules that a reader wants to quote. */
module PayoutTheorems {
  import opened Wrappers
  import opened Ledger
  import opened Payouts
  import opened Books
  import opened PayoutProtocol
  import opened PayoutSafety

  // ---------------------------------------------------------------- schedules

  lemma {:induction false} ExecConcat(s: State, a: seq<Event>, b: seq<Event>)
    ensures Exec(s, a + b) == Exec(Exec(s, a), b)
    decreases |a|
  {
    hide Next;
    if a == [] {
      assert a + b == b;
    } else {
      assert (a + b)[1..] == a[1..] + b;
      ExecConcat(Next(s, a[0]), a[1..], b);
    }
  }

  lemma ExecOne(s: State, e: Event)
    ensures Exec(s, [e]) == Next(s, e)
  {
    assert [e][1..] == [];
  }

  // ---------------------------------------------------------------- never overdrawn

  /** Accruals and corrections that only ever add. */
  predicate Generous(es: seq<Event>) {
    forall i :: 0 <= i < |es| && es[i].Credit? ==> es[i].row.amount >= 0
  }

  lemma {:induction false} CoveredKeepsSolvent(s: State, es: seq<Event>)
    requires Inv(s) && Solvent(s.db) && AllCovered(s, es)
    ensures Solvent(Exec(s, es).db)
    decreases |es|
  {
    hide Inv, Solvent, Next, EventCovered;
    if es != [] {
      EventKeepsInv(s, es[0]);
      EventKeepsSolvent(s, es[0]);
      CoveredKeepsSolvent(Next(s, es[0]), es[1..]);
    }
  }

  lemma {:induction false} GenerousIsCovered(s: State, es: seq<Event>)
    requires Inv(s) && Solvent(s.db) && Generous(es)
    requires forall k :: k in s.pending ==> s.pending[k].amount >= 0
    ensures AllCovered(s, es)
    decreases |es|
  {
    hide Inv, Available, Next;
    if es != [] {
      EventKeepsInv(s, es[0]);
      EventKeepsSolvent(s, es[0]);
      PendingStaysGenerous(s, es[0]);
      GenerousIsCovered(Next(s, es[0]), es[1..]);
    }
  }

  lemma PendingStaysGenerous(s: State, e: Event)
    requires forall k :: k in s.pending ==> s.pending[k].amount >= 0
    requires e.Credit? ==> e.row.amount >= 0
    ensures forall k :: k in Next(s, e).pending ==> Next(s, e).pending[k].amount >= 0
  {
    hide Advance;
  }

  lemma EmptyIsSolvent()
    ensures Inv(EMPTY) && Solvent(EMPTY.db)
  {
    hide Inv;
    EmptyIsGood();
  }

  /** In every interleaving of any calls with non-negative accruals, no seller is ever overdrawn. */
  lemma NeverOverdrawn(es: seq<Event>, seller: int)
    requires Generous(es)
    ensures Available(Exec(EMPTY, es).db.ledger, seller) >= 0
  {
    hide Available, Inv, Exec;
    EmptyIsSolvent();
    GenerousIsCovered(EMPTY, es);
    CoveredKeepsSolvent(EMPTY, es);
  }

  /** If every later correction is affordable when it is inserted, everybody ends solvent. */
  ghost predicate EndsSolvent(s: State, es: seq<Event>) {
    AllCovered(s, es) ==> Solvent(Exec(s, es).db)
  }

  /**
   A correction of any sign, about to commit, is harmless in every future in which later corrections are
   affordable too, exactly when the seller can afford it now.
   */
  lemma CreditIsSafeIff(s: State, k: nat)
    requires Inv(s) && Solvent(s.db) && k in s.pending
    ensures Available(s.db.ledger, s.pending[k].seller) + s.pending[k].amount >= 0
      <==> forall es :: EndsSolvent(Next(s, Settle(k)), es)
  {
    hide Inv, Available;
    var s', r := Next(s, Settle(k)), s.pending[k];
    EventKeepsInv(s, Settle(k));
    if Available(s.db.ledger, r.seller) + r.amount >= 0 {
      EventKeepsSolvent(s, Settle(k));
      forall es ensures EndsSolvent(s', es) {
        if AllCovered(s', es) {
          CoveredKeepsSolvent(s', es);
        }
      }
    } else {
      PendingIsExternal(s, k);
      AvailableAppend(s.db.ledger, r, r.seller);
      assert Available(s'.db.ledger, r.seller) < 0;
      assert !EndsSolvent(s', []);
    }
  }

  /**
   A run leaves every seller solvent at each of its points exactly when each correction in it was
   affordable when it committed. No interleaving of the calls themselves can matter.
   */
  lemma {:induction false} SolventThroughoutIff(s: State, es: seq<Event>)
    requires Inv(s) && Solvent(s.db)
    ensures AllCovered(s, es) <==> forall k :: 0 <= k <= |es| ==> Solvent(Exec(s, es[..k]).db)
    decreases |es|
  {
    hide Inv, Solvent, Next, EventCovered;
    if es == [] {
      assert forall k :: 0 <= k <= |es| ==> es[..k] == [];
    } else {
      var s' := Next(s, es[0]);
      forall k | 0 <= k <= |es| - 1 ensures Exec(s, es[..k + 1]) == Exec(s', es[1..][..k]) {
        assert es[..k + 1][1..] == es[1..][..k];
      }
      EventKeepsInv(s, es[0]);
      if EventCovered(s, es[0]) {
        EventKeepsSolvent(s, es[0]);
        SolventThroughoutIff(s', es[1..]);
        PrefixesShift(s, es);
      } else {
        UncoveredOverdraws(s, es[0]);
        assert Exec(s, es[..1]) == Exec(s', es[1..][..0]) == s';
      }
    }
  }

  /** The points of a run after its first event are the points of the rest. */
  lemma PrefixesShift(s: State, es: seq<Event>)
    requires es != [] && Solvent(s.db)
    ensures (forall k :: 0 <= k <= |es| ==> Solvent(Exec(s, es[..k]).db))
      <==> forall k :: 0 <= k <= |es[1..]| ==> Solvent(Exec(Next(s, es[0]), es[1..][..k]).db)
  {
    hide Solvent, Next;
    forall k | 0 < k <= |es| ensures Exec(s, es[..k]) == Exec(Next(s, es[0]), es[1..][..k - 1]) {
      assert es[..k][1..] == es[1..][..k - 1];
    }
    if forall k :: 0 <= k <= |es| ==> Solvent(Exec(s, es[..k]).db) {
      forall k | 0 <= k <= |es[1..]| ensures Solvent(Exec(Next(s, es[0]), es[1..][..k]).db) {
        assert Exec(s, es[..k + 1]) == Exec(Next(s, es[0]), es[1..][..k]);
      }
    }
  }

  lemma PendingIsExternal(s: State, k: nat)
    requires Inv(s) && k in s.pending
    ensures External(s.pending[k])
  {
  }

  lemma UncoveredOverdraws(s: State, e: Event)
    requires Inv(s) && !EventCovered(s, e)
    ensures !Solvent(Next(s, e).db)
  {
    hide Available, Inv;
    PendingIsExternal(s, e.credit);
    AvailableAppend(s.db.ledger, s.pending[e.credit], s.pending[e.credit].seller);
  }

  // ---------------------------------------------------------------- calls without rivals

  /** The key a call will write or has written under. */
  function KeyOf(s: State, t: Txn): nat {
    if t.op.Create? && Decided(t) && t.phase.writes.Writes? then t.phase.writes.id else s.nextId
  }

  /** A call that is alone and would succeed does run to its commit, and does what it would do at once. */
  lemma {:induction false} FinishAlone(s: State, i: nat) returns (es: seq<Event>)
    requires Inv(s) && s.txns.Keys == {i} && s.pending == map[]
    requires Decide(s.db, s.txns[i].op, KeyOf(s, s.txns[i])).Success?
    ensures Exec(s, es).txns == map[] && Exec(s, es).pending == map[]
    ensures Perform(s.db, s.txns[i].op, KeyOf(s, s.txns[i])) == Success(Exec(s, es).db)
    decreases Rank(s.txns[i])
  {
    hide Inv;
    var s' := Next(s, Step(i));
    ExecOne(s, Step(i));
    EventKeepsInv(s, Step(i));
    AloneMoves(s, i);
    if Advance(s, i).Commits? {
      CommitIsSerial(s, i);
      CommitsAsKeyed(s, i);
      es := [Step(i)];
    } else {
      var rest := FinishAlone(s', i);
      es := [Step(i)] + rest;
      ExecConcat(s, [Step(i)], rest);
    }
  }

  lemma CommitsAsKeyed(s: State, i: nat)
    requires Inv(s) && i in s.txns && Advance(s, i).Commits?
    ensures Perform(s.db, s.txns[i].op, KeyOf(s, s.txns[i])) == Success(Next(s, Step(i)).db)
    ensures s.txns.Keys == {i} ==> Next(s, Step(i)).txns == map[]
    ensures Next(s, Step(i)).pending == s.pending
  {
    hide Balanced, TxnOk;
    CommitIsSerial(s, i);
  }

  lemma AloneMoves(s: State, i: nat)
    requires Inv(s) && s.txns.Keys == {i} && s.pending == map[]
    requires Decide(s.db, s.txns[i].op, KeyOf(s, s.txns[i])).Success?
    ensures
      var s' := Next(s, Step(i));
      || Advance(s, i).Commits?
      || (&& Advance(s, i).Goes? && s'.txns.Keys == {i} && s'.pending == map[]
          && s'.db == s.db && s'.txns[i].op == s.txns[i].op
          && Rank(s'.txns[i]) < Rank(s.txns[i])
          && KeyOf(s', s'.txns[i]) == KeyOf(s, s.txns[i]))
  {
    hide Balanced, Available, UpdateWrites;
    assert TxnOk(s.db, s.nextId, s.txns[i]);
  }

  /** From a quiet state every call that can succeed has a schedule that commits it. */
  lemma RunAlone(s: State, op: Op) returns (es: seq<Event>)
    requires Inv(s) && s.txns == map[] && s.pending == map[]
    requires WellFormed(op) && Decide(s.db, op, s.nextId).Success?
    ensures Exec(s, es).txns == map[] && Exec(s, es).pending == map[]
    ensures Perform(s.db, op, s.nextId) == Success(Exec(s, es).db)
  {
    hide Balanced, Perform, Decide;
    var s' := Next(s, Begin(op));
    ExecOne(s, Begin(op));
    EventKeepsInv(s, Begin(op));
    var rest := FinishAlone(s', s.nextTxn);
    es := [Begin(op)] + rest;
    ExecConcat(s, [Begin(op)], rest);
  }

  // ---------------------------------------------------------------- what the comments promise

  const ACCRUAL: Row := Row(1, 7, 100, AccrualReceipt, Receipt(5), None)
  const REVERSAL: Row := Row(1, 7, -100, Correction, Receipt(5), Some(9))

  /** Seller 1 has earned 100 and asked for all of it to be paid out; nothing is running. */
  lemma CashedOut() returns (es: seq<Event>, id: nat)
    ensures
      var s := Exec(EMPTY, es);
      && Inv(s) && s.txns == map[] && s.pending == map[] && 1 in s.db.sellers
      && s.db.ledger == [ACCRUAL, Row(1, 7, -100, PayoutHold, Payout(id), None)]
      && s.db.payouts == map[id := PayoutRequest(1, 7, 100, "card", "card", New, None, None, None)]
  {
    var run := Earned();
    var s := Exec(EMPTY, run);
    hide Inv, Available, Exec;
    var rest := RunAlone(s, Create(1, 100, "card", None));
    es := run + rest;
    id := s.nextId;
    ExecConcat(EMPTY, run, rest);
    EmptyIsGood();
    RunsKeepInv(EMPTY, es);
    assert [ACCRUAL] + [Row(1, 7, -100, PayoutHold, Payout(id), None)]
        == [ACCRUAL, Row(1, 7, -100, PayoutHold, Payout(id), None)];
  }

  /** Seller 1 has earned 100 and nothing is running. */
  lemma Earned() returns (es: seq<Event>)
    ensures
      var s := Exec(EMPTY, es);
      && Inv(s) && s.txns == map[] && s.pending == map[] && s.db.payouts == map[]
      && s.db.sellers == map[1 := Seller(7, "card")] && s.db.ledger == [ACCRUAL] && Available(s.db.ledger, 1) == 100
  {
    var join := Join(1, Seller(7, "card"));
    var s1 := Next(EMPTY, join);
    assert Creditable(s1, ACCRUAL);
    es := [join] + [Credit(ACCRUAL), Settle(0)];
    ExecOne(EMPTY, join);
    ExecTwo(s1, Credit(ACCRUAL), Settle(0));
    ExecConcat(EMPTY, [join], [Credit(ACCRUAL), Settle(0)]);
    EmptyIsGood();
    RunsKeepInv(EMPTY, es);
    AvailableAppend([], ACCRUAL, 1);
    assert Available([], 1) == 0;
    assert [] + [ACCRUAL] == [ACCRUAL];
  }

  lemma ExecTwo(s: State, a: Event, b: Event)
    ensures Exec(s, [a, b]) == Next(Next(s, a), b)
  {
    var es := [a, b];
    assert es[1..] == [b];
    ExecOne(Next(s, a), b);
  }

  lemma SumOfTwo(a: Row, b: Row, seller: int, kinds: set<Kind>)
    ensures SumOf([a, b], seller, kinds)
         == (if a.seller == seller && a.kind in kinds then a.amount else 0)
            + if b.seller == seller && b.kind in kinds then b.amount else 0
  {
    assert [] + [a] == [a] && [a] + [b] == [a, b];
    SumAppend([], a, seller, kinds);
    SumAppend([a], b, seller, kinds);
  }

  /**
   The bonus of a receipt is taken back after the seller has cashed it out: the reversal does not look
   at the balance, and the seller ends 100 in debt.
   */
  lemma NegativeCorrectionCanOverdraw() returns (es: seq<Event>)
    ensures Available(Exec(EMPTY, es).db.ledger, 1) == -100
  {
    var run, id := CashedOut();
    var s := Exec(EMPTY, run);
    var more := [Credit(REVERSAL), Settle(s.nextTxn)];
    es := run + more;
    ExecConcat(EMPTY, run, more);
    ExecTwo(s, more[0], more[1]);
    assert Creditable(s, REVERSAL);
    hide Exec, SumOf, Inv;
    SumOfTwo(s.db.ledger[0], s.db.ledger[1], 1, AVAILABLE_ACCRUAL_KINDS);
    SumOfTwo(s.db.ledger[0], s.db.ledger[1], 1, {PayoutHold});
    AvailableAppend(s.db.ledger, REVERSAL, 1);
  }

  const TAKE_60: Row := Row(1, 7, -60, Correction, Receipt(5), Some(9))

  /**
   It is the moment of the commit that counts. Two corrections of -60 are each affordable out of 100 when
   they are inserted; foreign-key locks do not exclude each other, and both commit.
   */
  lemma AffordableInsertsCanOverdraw() returns (before: seq<Event>, i: nat, j: nat)
    ensures Available(Exec(EMPTY, before).db.ledger, 1) + TAKE_60.amount >= 0
    ensures Available(Exec(EMPTY, before + [Credit(TAKE_60)]).db.ledger, 1) + TAKE_60.amount >= 0
    ensures Available(
      Exec(EMPTY, before + [Credit(TAKE_60), Credit(TAKE_60)] + [Settle(i), Settle(j)]).db.ledger, 1) == -20
  {
    before := Earned();
    var s := Exec(EMPTY, before);
    i, j := s.nextTxn, s.nextTxn + 1;
    var both := [Credit(TAKE_60), Credit(TAKE_60)];
    ExecConcat(EMPTY, before, [Credit(TAKE_60)]);
    ExecOne(s, Credit(TAKE_60));
    ExecConcat(EMPTY, before, both);
    ExecConcat(EMPTY, before + both, [Settle(i), Settle(j)]);
    hide Inv, Exec, Available;
    TwoSettled(s, TAKE_60, TAKE_60);
    AvailableAppend(s.db.ledger, TAKE_60, 1);
    AvailableAppend(s.db.ledger + [TAKE_60], TAKE_60, 1);
  }

  /** Two outside rows inserted side by side, then committed. */
  lemma TwoSettled(s: State, a: Row, b: Row)
    requires s.txns == map[] && s.pending == map[] && External(a) && External(b)
    requires a.seller in s.db.sellers && b.seller in s.db.sellers
    ensures
      var s2 := Exec(s, [Credit(a), Credit(b)]);
      Exec(s2, [Settle(s.nextTxn), Settle(s.nextTxn + 1)]).db.ledger == s.db.ledger + [a] + [b]
  {
    ExecTwo(s, Credit(a), Credit(b));
    var s2 := Exec(s, [Credit(a), Credit(b)]);
    ExecTwo(s2, Settle(s.nextTxn), Settle(s.nextTxn + 1));
  }

  /**
   An ordinary payout breaks both comments of the balance service: once the request is paid, the sum of
   all the seller's rows is -100, and on_hold is 100 although nothing is pending.
   */
  lemma PaidRequestBreaksComments() returns (es: seq<Event>, id: nat)
    ensures
      var db := Exec(EMPTY, es).db;
      && SumOf(db.ledger, 1, EVERY_KIND) == -100
      && GetSellerBalance(db.ledger, 1).onHold == 100
      && db.payouts.Keys == {id} && db.payouts[id].status.Paid?
  {
    var run: seq<Event>;
    run, id := CashedOut();
    var s := Exec(EMPTY, run);
    EmptyIsGood();
    RunsKeepInv(EMPTY, run);
    hide Inv, Exec, SumOf;
    var rest := RunAlone(s, Approve(id, 9, None));
    es := run + rest;
    ExecConcat(EMPTY, run, rest);
    var paid := Row(1, 7, -100, PayoutCompleted, Payout(id), Some(9));
    assert Exec(EMPTY, es).db.ledger == s.db.ledger + [paid];
    SumOfTwo(s.db.ledger[0], s.db.ledger[1], 1, EVERY_KIND);
    SumOfTwo(s.db.ledger[0], s.db.ledger[1], 1, {PayoutHold});
    SumAppend(s.db.ledger, paid, 1, EVERY_KIND);
    SumAppend(s.db.ledger, paid, 1, {PayoutHold});
  }

  // ---------------------------------------------------------------- the books at every point

  /** After any run: holds, completion and reversal of each request, to the row. */
  lemma LedgerMirrorsPayouts(es: seq<Event>, id: nat)
    requires id in Exec(EMPTY, es).db.payouts
    ensures
      var db := Exec(EMPTY, es).db;
      var p := db.payouts[id];
      && p.amount > 0
      && Sum(AmountsOf(db.ledger, PayoutHold, id)) == -p.amount
      && AmountsOf(db.ledger, PayoutCompleted, id) == (if p.status.Paid? then [-p.amount] else [])
      && AmountsOf(db.ledger, PayoutReverted, id) == (if p.status.Rejected? then [p.amount] else [])
  {
    hide Exec, Balanced, TxnOk, Sum, AmountsOf;
    EmptyIsGood();
    RunsKeepInv(EMPTY, es);
    PositiveAmounts(Exec(EMPTY, es).db, Exec(EMPTY, es).nextId);
    HoldsMatchAmount(Exec(EMPTY, es).db, Exec(EMPTY, es).nextId, id);
  }

  /** After any run the amount_changed notices of a request form an unbroken chain. */
  lemma NoticesChainInRuns(es: seq<Event>, id: nat)
    requires id in Exec(EMPTY, es).db.payouts
    ensures
      var db := Exec(EMPTY, es).db;
      var changes := ChangesOf(db.outbox, id);
      var holds := AmountsOf(db.ledger, PayoutHold, id);
      && |holds| == |changes| + 1
      && (changes == [] ==> holds[0] == -db.payouts[id].amount)
      && (changes != [] ==> changes[0].0 == -holds[0] && changes[|changes| - 1].1 == db.payouts[id].amount)
      && (forall i :: 0 <= i < |changes| ==> changes[i].0 != changes[i].1)
      && (forall i :: 0 < i < |changes| ==> changes[i].0 == changes[i - 1].1)
  {
    hide Exec, Balanced, TxnOk;
    EmptyIsGood();
    RunsKeepInv(EMPTY, es);
    NoticesFormChain(Exec(EMPTY, es).db, Exec(EMPTY, es).nextId, id);
  }

  /** What a history has credited to a seller from outside the payout service. */
  function CreditSum(h: seq<Committed>, seller: int): int {
    if h == [] then 0
    else (if h[0].Credited? && h[0].row.seller == seller then h[0].row.amount else 0) + CreditSum(h[1..], seller)
  }

  /** Only an outside credit moves total_accrued; no payout call ever does. */
  lemma AccruedMovesByCredits(s: State, e: Event, seller: int)
    requires Inv(s)
    ensures SumOf(Next(s, e).db.ledger, seller, TOTAL_ACCRUED_KINDS)
         == SumOf(s.db.ledger, seller, TOTAL_ACCRUED_KINDS) + CreditSum(Commit(s, e), seller)
  {
    hide SumOf, Balanced, TxnOk;
    assert forall c: Committed :: [c][1..] == [];
    match e
    case Step(i) =>
      if i in s.txns && Advance(s, i).Commits? {
        CommitFits(s, i);
        ApplySum(s.db, Advance(s, i).writes, seller, TOTAL_ACCRUED_KINDS);
      }
    case Settle(k) =>
      if k in s.pending {
        SumAppend(s.db.ledger, s.pending[k], seller, TOTAL_ACCRUED_KINDS);
      }
    case _ =>
  }

  lemma CreditSumConcat(c: seq<Committed>, rest: seq<Committed>, seller: int)
    requires |c| <= 1
    ensures CreditSum(c + rest, seller) == CreditSum(c, seller) + CreditSum(rest, seller)
  {
    if c == [] {
      assert c + rest == rest;
    } else {
      assert c[1..] == [] && (c + rest)[1..] == rest;
    }
  }

  lemma {:induction false} AccruedIsCredited(s: State, es: seq<Event>, seller: int)
    requires Inv(s)
    ensures SumOf(Exec(s, es).db.ledger, seller, TOTAL_ACCRUED_KINDS)
         == SumOf(s.db.ledger, seller, TOTAL_ACCRUED_KINDS) + CreditSum(History(s, es), seller)
    decreases |es|
  {
    hide Inv, SumOf, Next;
    if es != [] {
      var s' := Next(s, es[0]);
      EventKeepsInv(s, es[0]);
      AccruedMovesByCredits(s, es[0], seller);
      AccruedIsCredited(s', es[1..], seller);
      CreditSumConcat(Commit(s, es[0]), History(s', es[1..]), seller);
    }
  }

  /**
   After any run get_seller_balance agrees with the payout table and with what was credited: every
   kopeck credited, net of corrections, is either available or in a request that was not rejected.
   */
  lemma BalanceRefinesTableInRuns(es: seq<Event>, seller: int)
    ensures
      var s := Exec(EMPTY, es);
      var b := GetSellerBalance(s.db.ledger, seller);
      var created := Total(s.db.payouts, seller, All, s.nextId);
      && b.totalAccrued == CreditSum(History(EMPTY, es), seller)
      && b.totalAccrued - b.available == created - Total(s.db.payouts, seller, RejectedOnly, s.nextId)
      && b.onHold == created
      && b.totalPaidOut == Total(s.db.payouts, seller, PaidOnly, s.nextId)
  {
    hide Exec, Balanced, TxnOk, Total, History, CreditSum;
    EmptyIsGood();
    RunsKeepInv(EMPTY, es);
    BalanceRefinesTable(Exec(EMPTY, es).db, Exec(EMPTY, es).nextId, seller);
    AccruedIsCredited(EMPTY, es, seller);
  }

  // ---------------------------------------------------------------- who is paid, and where

  /** The request is for the seller and of the kind that were asked for, and paid to the account asked for. */
  predicate AsAsked(db: Database, id: nat, op: Op) {
    && op.Create? && id in db.payouts && op.seller in db.sellers
    && db.payouts[id].seller == op.seller && db.payouts[id].kind == op.kind
    && db.payouts[id].brand == db.sellers[op.seller].brand
    && db.payouts[id].masked != ""
    && (op.maskedOverride.Some? && op.maskedOverride.value != "" ==> db.payouts[id].masked == op.maskedOverride.value)
    && (op.maskedOverride == None || op.maskedOverride == Some("") ==>
          db.payouts[id].masked == db.sellers[op.seller].masked)
  }

  lemma AsAskedStays(s: State, e: Event, id: nat, op: Op)
    requires Inv(s) && AsAsked(s.db, id, op)
    ensures AsAsked(Next(s, e).db, id, op)
  {
    hide Balanced, Available, TxnOk;
    if e.Step? && e.txn in s.txns && Advance(s, e.txn).Commits? {
      CommitIsSerial(s, e.txn);
    }
  }

  lemma NewIsAsAsked(s: State, e: Event, id: nat) returns (op: Op)
    requires Inv(s) && id !in s.db.payouts && id in Next(s, e).db.payouts
    ensures Commit(s, e) == [Served(op, id)] && AsAsked(Next(s, e).db, id, op)
    ensures Next(s, e).db.payouts[id].amount == op.sum
  {
    hide Balanced, Available, TxnOk;
    op := s.txns[e.txn].op;
    CommitIsSerial(s, e.txn);
  }

  /**
   After any run every request was made by a committed create for this seller and kind, and is to be paid
   to the account that create named, or to the seller's own if it named none; no later call redirects it.
   */
  lemma {:induction false} PaidWhereAsked(s: State, es: seq<Event>, id: nat) returns (op: Op)
    requires Inv(s) && id !in s.db.payouts && id in Exec(s, es).db.payouts
    ensures Served(op, id) in History(s, es) && AsAsked(Exec(s, es).db, id, op)
    decreases |es|
  {
    hide Inv, Next, Commit, AsAsked;
    var s' := Next(s, es[0]);
    EventKeepsInv(s, es[0]);
    if id in s'.db.payouts {
      op := NewIsAsAsked(s, es[0], id);
      StaysAsAsked(s', es[1..], id, op);
      assert Served(op, id) in Commit(s, es[0]);
    } else {
      op := PaidWhereAsked(s', es[1..], id);
    }
  }

  lemma {:induction false} StaysAsAsked(s: State, es: seq<Event>, id: nat, op: Op)
    requires Inv(s) && AsAsked(s.db, id, op)
    ensures AsAsked(Exec(s, es).db, id, op)
    decreases |es|
  {
    hide Inv, Next, AsAsked;
    if es != [] {
      EventKeepsInv(s, es[0]);
      AsAskedStays(s, es[0], id, op);
      StaysAsAsked(Next(s, es[0]), es[1..], id, op);
    }
  }

  // ---------------------------------------------------------------- final states

  lemma FinalStaysInOneStep(s: State, e: Event, id: nat)
    requires Inv(s) && id in s.db.payouts && !Open(s.db.payouts[id].status)
    ensures id in Next(s, e).db.payouts && Next(s, e).db.payouts[id] == s.db.payouts[id]
  {
    hide Balanced, Available, TxnOk;
    if e.Step? && e.txn in s.txns && Advance(s, e.txn).Commits? {
      CommitIsSerial(s, e.txn);
    }
  }

  /** A paid or rejected request never changes again, in any continuation. */
  lemma {:induction false} FinalIsForever(s: State, es: seq<Event>, id: nat)
    requires Inv(s) && id in s.db.payouts && !Open(s.db.payouts[id].status)
    ensures id in Exec(s, es).db.payouts && Exec(s, es).db.payouts[id] == s.db.payouts[id]
    decreases |es|
  {
    hide Inv, Next;
    if es != [] {
      FinalStaysInOneStep(s, es[0], id);
      EventKeepsInv(s, es[0]);
      FinalIsForever(Next(s, es[0]), es[1..], id);
    }
  }

  // ---------------------------------------------------------------- serializability

  datatype Committed =
    | Served(op: Op, id: nat)
    | Credited(row: Row)
    | Joined(sellerId: int, seller: Seller)
    | Progressed(id: nat)

  /** The committed effect of one event, if it has one. */
  function Commit(s: State, e: Event): seq<Committed> {
    match e
    case Step(i) =>
      if i in s.txns && Advance(s, i).Commits?
      then [Served(s.txns[i].op, IdOf(s, Advance(s, i).writes, s.txns[i].op))] else []
    case Settle(k) => if k in s.pending then [Credited(s.pending[k])] else []
    case Join(id, seller) => if id !in s.db.sellers then [Joined(id, seller)] else []
    case Progress(id) => if Next(s, e).db != s.db then [Progressed(id)] else []
    case _ => []
  }

  function History(s: State, es: seq<Event>): seq<Committed>
    decreases |es|
  {
    if es == [] then [] else Commit(s, es[0]) + History(Next(s, es[0]), es[1..])
  }

  /** One call after the other, each on the database the previous one left; None if a call fails. */
  function Replay(db: Database, h: seq<Committed>): Option<Database>
    decreases |h|
  {
    if h == [] then Some(db)
    else
      match h[0]
      case Served(op, id) =>
        (match Perform(db, op, id)
         case Success(db') => Replay(db', h[1..])
         case Failure(_) => None)
      case Credited(r) => Replay(db.(ledger := db.ledger + [r]), h[1..])
      case Joined(id, seller) => Replay(db.(sellers := db.sellers[id := seller]), h[1..])
      case Progressed(id) => if id in db.payouts then Replay(Apply(db, ProgressWrites(db, id)), h[1..]) else None
  }

  lemma EventIsSerial(s: State, e: Event, rest: seq<Committed>)
    requires Inv(s)
    ensures Replay(s.db, Commit(s, e) + rest) == Replay(Next(s, e).db, rest)
  {
    hide Balanced, Available, TxnOk;
    var c := Commit(s, e);
    if c == [] {
      assert c + rest == rest;
      assert Next(s, e).db == s.db;
    } else {
      assert (c + rest)[1..] == rest && (c + rest)[0] == c[0];
      if e.Step? {
        CommitIsSerial(s, e.txn);
      }
    }
  }

  /**
   Every interleaving leaves the database of a serial execution: its committed calls, run one at a
   time in commit order, all succeed and write the same rows. Aborted, failed and unfinished calls
   contribute nothing.
   */
  lemma {:induction false} RunsAreSerializable(s: State, es: seq<Event>)
    requires Inv(s)
    ensures Replay(s.db, History(s, es)) == Some(Exec(s, es).db)
    decreases |es|
  {
    hide Inv, Next, Commit;
    if es != [] {
      EventKeepsInv(s, es[0]);
      EventIsSerial(s, es[0], History(Next(s, es[0]), es[1..]));
      RunsAreSerializable(Next(s, es[0]), es[1..]);
    }
  }

  // ---------------------------------------------------------------- progress

  /** A call that has locked a seller, or has written to its ledger, waits for nobody. */
  lemma SellerHolderMoves(s: State, k: nat)
    requires Inv(s) && k in s.txns && (s.txns[k].sellerLock.Some? || s.txns[k].phase.Flushed?)
    ensures !Advance(s, k).Blocked?
  {
    hide Balanced, Available;
    assert TxnOk(s.db, s.nextId, s.txns[k]);
    forall j | j in s.txns && j != k ensures Apart(s.txns[k], s.txns[j]) {}
  }

  /** A step that really happens: a call that need not wait, or the commit of an outside row. */
  predicate CanHappen(s: State, e: Event) {
    || (e.Step? && e.txn in s.txns && !Advance(s, e.txn).Blocked?)
    || (e.Settle? && e.credit in s.pending)
  }

  /** Whoever waits, waits for a chain of at most two holders of locks, the last of which can move. */
  lemma DeadlockFree(s: State, i: nat) returns (e: Event)
    requires Inv(s) && i in s.txns
    ensures CanHappen(s, e)
  {
    hide Balanced, Available, ApproveWrites, RejectWrites, UpdateWrites, Decide;
    var k := i;
    assert TxnOk(s.db, s.nextId, s.txns[i]);
    if Advance(s, k).Blocked? && s.txns[k].phase.Start? && !s.txns[k].op.Create? {
      k := HoldsPayout(s, k);
    }
    if Advance(s, k).Blocked? {
      e := HoldsSeller(s, k);
    } else {
      e := Step(k);
    }
  }

  lemma HoldsPayout(s: State, k: nat) returns (j: nat)
    requires k in s.txns && Advance(s, k).Blocked? && s.txns[k].phase.Start? && !s.txns[k].op.Create?
    ensures j in s.txns && s.txns[j].payoutLock.Some?
  {
    j :| j in s.txns && j != k && s.txns[j].payoutLock == Some(s.txns[k].op.id);
  }

  /** A call that waits and is not after a request waits for somebody's hold on a seller row. */
  lemma HoldsSeller(s: State, k: nat) returns (e: Event)
    requires Inv(s) && k in s.txns && Advance(s, k).Blocked?
    requires s.txns[k].payoutLock.Some? || s.txns[k].op.Create?
    ensures CanHappen(s, e)
  {
    hide Balanced, Available, ApproveWrites, RejectWrites, UpdateWrites;
    var t := s.txns[k];
    assert TxnOk(s.db, s.nextId, t);
    if t.phase.Staged? {
      assert !Insertable(s, RowSeller(t.phase.writes).value, k);
      var j :| j in s.txns && j != k && s.txns[j].sellerLock == RowSeller(t.phase.writes);
      SellerHolderMoves(s, j);
      e := Step(j);
    } else {
      var seller := if t.op.Create? then t.op.seller else t.phase.held.seller;
      assert !SellerFree(s, seller, k);
      if c :| c in s.pending && s.pending[c].seller == seller {
        e := Settle(c);
      } else {
        var j :| j in s.txns && j != k && (s.txns[j].sellerLock == Some(seller) || Pinned(s.txns[j]) == Some(seller));
        SellerHolderMoves(s, j);
        e := Step(j);
      }
    }
  }

  function Rank(t: Txn): nat {
    match t.phase
    case Start => 6
    case PayoutLocked(_) => 5
    case SellerLocked(_, _) => 4
    case BalanceRead(_, _, _) => 3
    case Staged(_) => 2
    case Flushed(_) => 1
  }

  /** Small steps left, over the first n calls. */
  function Work(txns: map<nat, Txn>, n: nat): nat {
    if n == 0 then 0 else Work(txns, n - 1) + if n - 1 in txns then Rank(txns[n - 1]) else 0
  }

  lemma {:induction false} WorkDrops(before: map<nat, Txn>, after: map<nat, Txn>, i: nat, n: nat)
    requires i in before && (i in after ==> Rank(after[i]) < Rank(before[i]))
    requires forall j :: j != i ==> (j in before <==> j in after) && (j in before ==> before[j] == after[j])
    ensures if i < n then Work(after, n) < Work(before, n) else Work(after, n) == Work(before, n)
  {
    if n > 0 {
      WorkDrops(before, after, i, n - 1);
    }
  }

  lemma StepWorks(s: State, i: nat)
    requires Inv(s) && i in s.txns && !Advance(s, i).Blocked?
    ensures Work(Next(s, Step(i)).txns, s.nextTxn) < Work(s.txns, s.nextTxn)
  {
    hide Balanced, Available, ApproveWrites, RejectWrites, UpdateWrites, CreateWrites, Work;
    assert TxnOk(s.db, s.nextId, s.txns[i]);
    WorkDrops(s.txns, Next(s, Step(i)).txns, i, s.nextTxn);
  }

  /**
   From every reachable state the calls already begun and the outside rows already inserted can all
   finish, by their own steps and commits alone.
   */
  lemma {:induction false} EveryCallCanFinish(s: State) returns (es: seq<Event>)
    requires Inv(s)
    ensures forall e :: e in es ==> e.Step? || e.Settle?
    ensures Exec(s, es).txns == map[] && Exec(s, es).pending == map[]
    decreases |s.pending|, Work(s.txns, s.nextTxn)
  {
    hide Balanced, TxnOk, Advance, Work;
    es := [];
    var e: Event;
    if s.pending != map[] {
      var c :| c in s.pending;
      e := Settle(c);
      SettleShrinks(s, c);
    } else if s.txns != map[] {
      var i :| i in s.txns;
      e := DeadlockFree(s, i);
      StepWorks(s, e.txn);
      StepKeepsRest(s, e.txn);
    } else {
      return;
    }
    EventKeepsInv(s, e);
    var rest := EveryCallCanFinish(Next(s, e));
    es := [e] + rest;
    assert es[1..] == rest;
  }

  lemma StepKeepsRest(s: State, k: nat)
    ensures Next(s, Step(k)).nextTxn == s.nextTxn && Next(s, Step(k)).pending == s.pending
  {
  }

  lemma SettleShrinks(s: State, c: nat)
    requires c in s.pending
    ensures |Next(s, Settle(c)).pending| < |s.pending|
  {
    var rest := s.pending - {c};
    assert rest.Keys == s.pending.Keys - {c};
    assert |rest.Keys| == |rest| && |s.pending.Keys| == |s.pending|;
  }
}
