/**
 What every schedule of the payout protocol keeps.

 Only a create or an increase locks the seller FOR UPDATE, yet no call ever overdraws: whatever
 lowers a balance has locked it and looked, and nobody else can write to a locked seller's ledger.
 */
module PayoutSafety {
  import opened Wrappers
  import opened Ledger
  import opened Payouts
  import opened Books
  import opened PayoutProtocol

  // ---------------------------------------------------------------- one commit

  lemma EffectOfApply(db: Database, w: Writes, seller: int)
    ensures Available(Apply(db, w).ledger, seller) == Available(db.ledger, seller) + Effect(w, seller)
  {
    if w.Writes? && w.row.Some? {
      AvailableAppend(db.ledger, w.row.value, seller);
    }
  }

  /** At its commit point a call does exactly what it would have done running alone. */
  lemma CommitIsSerial(s: State, i: nat)
    requires Inv(s) && i in s.txns && Advance(s, i).Commits?
    ensures
      var op := s.txns[i].op;
      var w := Advance(s, i).writes;
      && IdOf(s, w, op) !in s.db.payouts
      && Decide(s.db, op, IdOf(s, w, op)) == Success(w)
      && Perform(s.db, op, IdOf(s, w, op)) == Success(Next(s, Step(i)).db)
  {
    hide Balanced, Available;
    BelowNextId(s.db, s.nextId);
    assert TxnOk(s.db, s.nextId, s.txns[i]);
  }

  lemma PositiveAmounts(db: Database, n: nat)
    requires Balanced(db, n)
    ensures forall id :: id in db.payouts ==> db.payouts[id].amount > 0
  {
    hide Totalled, Explained;
    forall id | id in db.payouts ensures db.payouts[id].amount > 0 {
      assert Accounted(db, id);
    }
  }

  /** A call that fails gives the answer it would have given running alone. */
  lemma FailureIsSerial(s: State, i: nat)
    requires Inv(s) && i in s.txns && Advance(s, i).Fails?
    ensures forall id: nat :: Decide(s.db, s.txns[i].op, id) == Failure(Advance(s, i).error)
  {
    hide Balanced, Available, UpdateWrites, CreateWrites;
    assert TxnOk(s.db, s.nextId, s.txns[i]);
  }

  lemma CommitFits(s: State, i: nat)
    requires Inv(s) && i in s.txns && Advance(s, i).Commits?
    ensures Fits(s.db, Advance(s, i).writes)
  {
    hide Balanced, Fits, Perform;
    var w := Advance(s, i).writes;
    CommitIsSerial(s, i);
    PositiveAmounts(s.db, s.nextId);
    DecideFits(s.db, s.txns[i].op, IdOf(s, w, s.txns[i].op));
  }

  /** A commit that lowers a seller's balance holds that seller's lock and leaves it non-negative. */
  lemma LowersOnlyUnderLock(s: State, i: nat, seller: int)
    requires Inv(s) && i in s.txns && Advance(s, i).Commits? && Effect(Advance(s, i).writes, seller) < 0
    ensures s.txns[i].sellerLock == Some(seller)
    ensures Available(Next(s, Step(i)).db.ledger, seller) >= 0
  {
    hide Balanced, Available, Fits, Solvent;
    PositiveAmounts(s.db, s.nextId);
    EffectOfApply(s.db, Advance(s, i).writes, seller);
    assert TxnOk(s.db, s.nextId, s.txns[i]);
  }

  /** While a call holds a seller's lock, another call's commit leaves that seller's balance as it was. */
  lemma LockedBalanceIsStill(s: State, i: nat, j: nat)
    requires Inv(s) && i in s.txns && j in s.txns && i != j && Advance(s, i).Commits?
    requires s.txns[j].sellerLock.Some?
    ensures
      var seller := s.txns[j].sellerLock.value;
      Available(Next(s, Step(i)).db.ledger, seller) == Available(s.db.ledger, seller)
  {
    hide Balanced, Available, TxnOk;
    assert Apart(s.txns[j], s.txns[i]);
    EffectOfApply(s.db, Advance(s, i).writes, s.txns[j].sellerLock.value);
  }

  lemma StagedWritesOwn(db: Database, nextId: nat, t: Txn, w: Writes)
    requires StagedOk(db, nextId, t, w) && w.Writes? && !t.op.Create?
    ensures w.id == t.op.id
  {
    hide Available;
  }

  /** A change that touches neither what a call has locked nor its seller's balance leaves the call valid. */
  lemma TxnStaysOk(db: Database, db': Database, nextId: nat, t: Txn)
    requires TxnOk(db, nextId, t)
    requires forall id :: id in db.sellers ==> id in db'.sellers && db'.sellers[id] == db.sellers[id]
    requires t.payoutLock.Some? && t.payoutLock.value in db.payouts ==>
               t.payoutLock.value in db'.payouts && db'.payouts[t.payoutLock.value] == db.payouts[t.payoutLock.value]
    requires t.sellerLock.Some? ==>
               Available(db'.ledger, t.sellerLock.value) == Available(db.ledger, t.sellerLock.value)
    requires t.op.Create? && Decided(t) && t.phase.writes.Writes? && t.phase.writes.id !in db.payouts ==>
               t.phase.writes.id !in db'.payouts
    ensures TxnOk(db', nextId, t)
  {
    hide Available, CreateWrites, ApproveWrites, RejectWrites, UpdateWrites;
  }

  /** Another call's commit does not disturb what call j has locked and seen. */
  lemma OthersKept(s: State, i: nat, j: nat)
    requires Inv(s) && i in s.txns && j in s.txns && i != j && Advance(s, i).Commits?
    ensures TxnOk(Apply(s.db, Advance(s, i).writes), s.nextId, s.txns[j])
  {
    hide Balanced, Available, StagedOk;
    var w := Advance(s, i).writes;
    assert Apart(s.txns[i], s.txns[j]) && Apart(s.txns[j], s.txns[i]);
    assert TxnOk(s.db, s.nextId, s.txns[i]) && TxnOk(s.db, s.nextId, s.txns[j]);
    if s.txns[j].sellerLock.Some? {
      LockedBalanceIsStill(s, i, j);
    }
    if w.Writes? {
      WritesOwnRow(s, i);
    }
    TxnStaysOk(s.db, Apply(s.db, w), s.nextId, s.txns[j]);
  }

  /** A commit writes the request it has locked, or a new one. */
  lemma WritesOwnRow(s: State, i: nat)
    requires Inv(s) && i in s.txns && Advance(s, i).Commits? && Advance(s, i).writes.Writes?
    ensures
      var t, id := s.txns[i], Advance(s, i).writes.id;
      if t.op.Create? then id !in s.db.payouts && id < s.nextId else t.payoutLock == Some(id) && id in s.db.payouts
  {
    hide Balanced, Available, Decide;
    assert TxnOk(s.db, s.nextId, s.txns[i]);
    if !s.txns[i].op.Create? {
      StagedWritesOwn(s.db, s.nextId, s.txns[i], Advance(s, i).writes);
    }
  }

  lemma CommitKeepsInv(s: State, i: nat)
    requires Inv(s) && i in s.txns && Advance(s, i).Commits?
    ensures Inv(Next(s, Step(i)))
  {
    hide Balanced, TxnOk, Fits;
    var w := Advance(s, i).writes;
    var s' := Next(s, Step(i));
    CommitFits(s, i);
    if w.Writes? {
      WritesOwnRow(s, i);
      WrittenIdIsKnown(s, i);
    }
    FitsKeepsBooks(s.db, w, s.nextId, s.nextId);
    forall j | j in s'.txns ensures TxnOk(s'.db, s'.nextId, s'.txns[j]) {
      OthersKept(s, i, j);
    }
  }

  lemma WrittenIdIsKnown(s: State, i: nat)
    requires Inv(s) && i in s.txns && Advance(s, i).Commits? && Advance(s, i).writes.Writes?
    ensures Advance(s, i).writes.id < s.nextId
  {
    hide Available, Decide;
    WritesOwnRow(s, i);
    assert TxnOk(s.db, s.nextId, s.txns[i]);
  }

  // ---------------------------------------------------------------- the other events

  lemma MoveKeepsInv(s: State, i: nat)
    requires Inv(s) && i in s.txns && Advance(s, i).Goes?
    ensures Inv(Next(s, Step(i)))
  {
    hide Balanced, TxnOk, Apart;
    var s' := Next(s, Step(i));
    var t' := s'.txns[i];
    FitsKeepsBooks(s.db, Nothing, s.nextId, s'.nextId);
    MoveKeepsTxn(s, i);
    forall j | j in s'.txns && j != i
      ensures TxnOk(s'.db, s'.nextId, s'.txns[j]) && Apart(t', s'.txns[j]) && Apart(s'.txns[j], t')
    {
      MoveKeepsOther(s, i, j);
    }
    forall k | k in s'.pending ensures t'.sellerLock != Some(s'.pending[k].seller) {
      MoveSparesPending(s, i, k);
    }
  }

  /** A call does not get the lock of a seller whose row an outside insert keeps. */
  lemma MoveSparesPending(s: State, i: nat, k: nat)
    requires Inv(s) && i in s.txns && Advance(s, i).Goes? && k in s.pending
    ensures Advance(s, i).txn.sellerLock != Some(s.pending[k].seller)
  {
    hide Balanced, TxnOk, Available, Apart, Decide, ApproveWrites, RejectWrites, UpdateWrites, CreateWrites;
  }

  lemma MoveKeepsTxn(s: State, i: nat)
    requires Inv(s) && i in s.txns && Advance(s, i).Goes?
    ensures
      var s' := Next(s, Step(i));
      s'.db == s.db && TxnOk(s'.db, s'.nextId, s'.txns[i])
  {
    hide Balanced, Available, PayoutFree, SellerFree, TxnOk, Advance;
    assert TxnOk(s.db, s.nextId, s.txns[i]);
    BelowNextId(s.db, s.nextId);
    MovedTxnOk(s, i);
  }

  lemma MovedTxnOk(s: State, i: nat)
    requires i in s.txns && TxnOk(s.db, s.nextId, s.txns[i]) && Advance(s, i).Goes? && s.nextId !in s.db.payouts
    ensures TxnOk(s.db, Next(s, Step(i)).nextId, Advance(s, i).txn)
  {
    hide Available, PayoutFree, SellerFree, Insertable, CreateWrites, UpdateWrites, ApproveWrites, RejectWrites;
    CreateWritesKey(s.txns[i].op, s.nextId);
    UpdateWritesSome(s.txns[i].op);
    match s.txns[i].phase
    case PayoutLocked(p) =>
    case BalanceRead(row, seller, available) =>
    case _ =>
  }

  lemma CreateWritesKey(op: Op, id: nat)
    ensures op.Create? ==> forall x: Seller :: CreateWrites(op, id, x).Writes? && CreateWrites(op, id, x).id == id
  {
  }

  lemma UpdateWritesSome(op: Op)
    ensures op.Update? ==> forall p: PayoutRequest :: UpdateWrites(op, p).Writes?
  {
  }

  lemma MoveKeepsOther(s: State, i: nat, j: nat)
    requires Inv(s) && i in s.txns && Advance(s, i).Goes? && j in s.txns && j != i
    ensures
      var s' := Next(s, Step(i));
      && s'.txns[j] == s.txns[j] && TxnOk(s'.db, s'.nextId, s'.txns[j])
      && Apart(s'.txns[i], s'.txns[j]) && Apart(s'.txns[j], s'.txns[i])
  {
    hide Balanced, TxnOk, Advance, Apart;
    var s' := Next(s, Step(i));
    assert TxnOk(s.db, s.nextId, s.txns[i]) && TxnOk(s.db, s.nextId, s.txns[j]);
    NextIdGrows(s.db, s.nextId, s'.nextId, s.txns[j]);
    MoveKeepsApart(s, i, j);
  }

  lemma NextIdGrows(db: Database, n: nat, n': nat, t: Txn)
    requires TxnOk(db, n, t) && n <= n'
    ensures TxnOk(db, n', t)
  {
    hide Decide, Available, Settled;
  }

  lemma MoveKeepsApart(s: State, i: nat, j: nat)
    requires i in s.txns && Advance(s, i).Goes? && j in s.txns && j != i
    requires TxnOk(s.db, s.nextId, s.txns[i]) && TxnOk(s.db, s.nextId, s.txns[j])
    requires Apart(s.txns[i], s.txns[j]) && Apart(s.txns[j], s.txns[i])
    ensures Apart(Advance(s, i).txn, s.txns[j]) && Apart(s.txns[j], Advance(s, i).txn)
  {
    hide Available, Decide, UpdateWrites, ApproveWrites, RejectWrites, Settled;
  }

  lemma CreditKeepsInv(s: State, r: Row)
    requires Inv(s) && Creditable(s, r)
    ensures Inv(Next(s, Credit(r)))
  {
    hide Balanced, TxnOk, Apart;
    forall i | i in s.txns ensures s.txns[i].sellerLock != Some(r.seller) {
      assert i != s.nextTxn;
    }
  }

  /** An outside row commits: whoever has a seller locked has another seller locked. */
  lemma SettleKeepsInv(s: State, k: nat)
    requires Inv(s) && k in s.pending
    ensures Inv(Next(s, Settle(k)))
  {
    hide Balanced, Available, TxnOk, Apart;
    var s', r := Next(s, Settle(k)), s.pending[k];
    ExternalKeepsBooks(s.db, r, s.nextId);
    forall j | j in s'.txns ensures TxnOk(s'.db, s'.nextId, s'.txns[j]) {
      assert TxnOk(s.db, s.nextId, s.txns[j]);
      if s.txns[j].sellerLock.Some? {
        AvailableAppend(s.db.ledger, r, s.txns[j].sellerLock.value);
      }
      TxnStaysOk(s.db, s'.db, s.nextId, s.txns[j]);
    }
  }

  lemma WithdrawKeepsInv(s: State, k: nat)
    requires Inv(s)
    ensures Inv(Next(s, Withdraw(k)))
  {
    hide Balanced, TxnOk, Apart;
  }

  lemma ProgressKeepsInv(s: State, id: nat)
    requires Inv(s)
    ensures Inv(Next(s, Progress(id)))
  {
    hide Balanced, Available, TxnOk;
    var s' := Next(s, Progress(id));
    if s'.db != s.db {
      var w := ProgressWrites(s.db, id);
      PositiveAmounts(s.db, s.nextId);
      KnownIds(s.db, s.nextId);
      FitsKeepsBooks(s.db, w, s.nextId, s.nextId);
      forall j | j in s'.txns ensures TxnOk(s'.db, s'.nextId, s'.txns[j]) {
        assert TxnOk(s.db, s.nextId, s.txns[j]);
        TxnStaysOk(s.db, s'.db, s.nextId, s.txns[j]);
      }
    }
  }

  lemma KnownIds(db: Database, n: nat)
    requires Balanced(db, n)
    ensures forall id :: id in db.payouts ==> id < n
  {
  }

  lemma JoinKeepsInv(s: State, id: int, seller: Seller)
    requires Inv(s)
    ensures Inv(Next(s, Join(id, seller)))
  {
    hide TxnOk, Story, Available;
    var s' := Next(s, Join(id, seller));
    forall k: nat ensures Accounted(s'.db, k) {
      assert Accounted(s.db, k);
      if k in s.db.payouts {
        var first :| Explained(s.db, k, first);
        assert Explained(s'.db, k, first);
      }
    }
    forall x ensures Totalled(s'.db, s'.nextId, x) {
      assert Totalled(s.db, s.nextId, x);
    }
    forall j | j in s'.txns ensures TxnOk(s'.db, s'.nextId, s'.txns[j]) {
      assert TxnOk(s.db, s.nextId, s.txns[j]);
      TxnStaysOk(s.db, s'.db, s.nextId, s.txns[j]);
    }
  }

  /** Every event keeps the invariant, whatever it credits or takes back. */
  lemma EventKeepsInv(s: State, e: Event)
    requires Inv(s)
    ensures Inv(Next(s, e))
  {
    hide Balanced, TxnOk;
    match e
    case Begin(op) => BeginKeepsInv(s, op);
    case Step(i) =>
      if i in s.txns {
        match Advance(s, i)
        case Blocked =>
        case Fails(_) => LeaveKeepsInv(s, i);
        case Goes(_, _) => MoveKeepsInv(s, i);
        case Commits(_) => CommitKeepsInv(s, i);
      }
    case Abort(i) => LeaveKeepsInv(s, i);
    case Credit(r) => if Creditable(s, r) { CreditKeepsInv(s, r); }
    case Settle(k) => if k in s.pending { SettleKeepsInv(s, k); }
    case Withdraw(k) => WithdrawKeepsInv(s, k);
    case Join(id, seller) => JoinKeepsInv(s, id, seller);
    case Progress(id) => ProgressKeepsInv(s, id);
  }

  lemma BeginKeepsInv(s: State, op: Op)
    requires Inv(s)
    ensures Inv(Next(s, Begin(op)))
  {
    hide Balanced, StagedOk, Charging, Holds;
  }

  lemma LeaveKeepsInv(s: State, i: nat)
    requires Inv(s)
    ensures Inv(s.(txns := s.txns - {i}))
  {
    hide Balanced, TxnOk, Apart;
  }

  /** Every reachable state of every schedule satisfies the invariant. */
  lemma {:induction false} RunsKeepInv(s: State, es: seq<Event>)
    requires Inv(s)
    ensures Inv(Exec(s, es))
    decreases |es|
  {
    if es != [] {
      EventKeepsInv(s, es[0]);
      RunsKeepInv(Next(s, es[0]), es[1..]);
    }
  }

  lemma EmptyIsGood()
    ensures Inv(EMPTY)
  {
    forall seller, pick: Pick ensures Total(EMPTY.db.payouts, seller, pick, 0) == 0 {}
  }

  // ---------------------------------------------------------------- solvency

  lemma StepKeepsSolvent(s: State, i: nat)
    requires Inv(s) && Solvent(s.db) && i in s.txns && Advance(s, i).Commits?
    ensures Solvent(Next(s, Step(i)).db)
  {
    hide Inv, Available, Advance;
    var w := Advance(s, i).writes;
    forall seller ensures Available(Next(s, Step(i)).db.ledger, seller) >= 0 {
      EffectOfApply(s.db, w, seller);
      if Effect(w, seller) < 0 {
        LowersOnlyUnderLock(s, i, seller);
      }
    }
  }

  /** No event overdraws anyone, except a correction its seller cannot afford when it commits. */
  lemma EventKeepsSolvent(s: State, e: Event)
    requires Inv(s) && Solvent(s.db) && EventCovered(s, e)
    ensures Solvent(Next(s, e).db)
  {
    hide Inv, Available;
    if e.Step? && e.txn in s.txns && Advance(s, e.txn).Commits? {
      StepKeepsSolvent(s, e.txn);
    } else if e.Settle? && e.credit in s.pending {
      forall seller ensures Available(Next(s, e).db.ledger, seller) >= 0 {
        AvailableAppend(s.db.ledger, s.pending[e.credit], seller);
      }
    }
  }
}
