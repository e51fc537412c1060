/**
 The payout service as the code writes it: a session over the database whose fields the calls
 update step by step, plus the Redis cache of create results (payout_request/service.py).
 Each method is one uncontended call; PayoutProtocol interleaves them.
 */
module PayoutService {
  import opened Wrappers
  import opened Ledger
  import opened Payouts
  import opened Books

  class Session {
    var sellers: map<int, Seller>
    var payouts: map<nat, PayoutRequest>
    var ledger: seq<Row>
    var outbox: seq<Notice>
    var nextId: nat
    var cache: map<string, (nat, PayoutRequest)>

    function Db(): Database
      reads this
    {
      Database(sellers, payouts, ledger, outbox)
    }

    ghost predicate Valid()
      reads this
    {
      Balanced(Db(), nextId)
    }

    constructor (sellers: map<int, Seller>)
      ensures Valid()
      ensures Db() == Database(sellers, map[], [], []) && nextId == 0 && cache == map[]
    {
      this.sellers, payouts, ledger, outbox, nextId, cache := sellers, map[], [], [], 0, map[];
      new;
      forall seller, pick: Pick ensures Total(payouts, seller, pick, 0) == 0 {}
    }

    ghost predicate Kept(before: Database, op: Op, id: nat, outcome: Option<Error>)
      reads this
    {
      match Perform(before, op, id)
      case Success(after) => outcome.None? && Db() == after
      case Failure(e) => outcome == Some(e) && Db() == before
    }

    /**
     A repeated key returns the first answer and leaves the database alone. A new request is paid to the
     account the call names, or to the seller's own if it names none.
     */
    method CreatePayoutRequest(seller: int, amount: int, kind: string, maskedOverride: Option<string>, key: string)
      returns (r: Result<(nat, PayoutRequest), Error>)
      requires Valid() && amount > 0
      modifies this
      ensures Valid()
      ensures key in old(cache) ==> r == Success(old(cache[key])) && Db() == old(Db()) && cache == old(cache)
      ensures key !in old(cache) ==>
        Kept(old(Db()), Create(seller, amount, kind, maskedOverride), old(nextId),
             if r.Success? then None else Some(r.error))
      ensures key !in old(cache) && r.Success? ==>
        && r.value.0 == old(nextId) && nextId == old(nextId) + 1
        && r.value.0 in payouts && r.value.1 == payouts[r.value.0]
        && cache == old(cache)[key := r.value]
      ensures key !in old(cache) && r.Success? ==>
        seller in old(sellers) && r.value.0 !in old(payouts)
      ensures key !in old(cache) && r.Success? ==>
        var account :=
          if maskedOverride.Some? && maskedOverride.value != "" then maskedOverride.value
          else old(sellers)[seller].masked;
        && account != ""
        && r.value.1 == PayoutRequest(seller, old(sellers)[seller].brand, amount, kind, account, New, None, None, None)
        && payouts == old(payouts)[r.value.0 := r.value.1] && outbox == old(outbox)
        && ledger == old(ledger)
             + [Row(seller, old(sellers)[seller].brand, -amount, PayoutHold, Payout(r.value.0), None)]
      ensures key !in old(cache) ==> (r == Failure(SellerNotFound) <==> seller !in old(sellers))
      ensures key !in old(cache) && seller in old(sellers) ==>
        && (r == Failure(PayoutDetailsRequired)
            <==> (maskedOverride == None || maskedOverride == Some("")) && old(sellers)[seller].masked == "")
        && (r == Failure(InsufficientBalance)
            <==> r != Failure(PayoutDetailsRequired) && GetSellerBalance(old(ledger), seller).available < amount)
      ensures r.Failure? ==> cache == old(cache)
    {
      hide Balanced, GetSellerBalance;
      if key in cache {
        return Success(cache[key]);
      }
      if seller !in sellers {
        return Failure(SellerNotFound);
      }
      var row := sellers[seller];
      var masked := if Truthy(maskedOverride) then maskedOverride.value else row.masked;
      if masked == "" {
        return Failure(PayoutDetailsRequired);
      }
      var balance := GetSellerBalance(ledger, seller);
      if balance.available < amount {
        return Failure(InsufficientBalance);
      }
      ghost var before := Db();
      BelowNextId(before, nextId);
      ghost var op := Create(seller, amount, kind, maskedOverride);
      var id := nextId;
      var payout := PayoutRequest(seller, row.brand, amount, kind, masked, New, None, None, None);
      payouts := payouts[id := payout];
      nextId := nextId + 1;
      ledger := ledger + [Row(seller, row.brand, -amount, PayoutHold, Payout(id), None)];
      cache := cache[key := (id, payout)];
      PerformKeepsBooks(before, op, id, id, nextId);
      return Success((id, payout));
    }

    method ApprovePayoutRequest(id: nat, admin: int, txn: Option<string>) returns (r: Result<PayoutRequest, Error>)
      requires Valid()
      modifies `payouts, `ledger
      ensures Valid()
      ensures Kept(old(Db()), Approve(id, admin, txn), nextId, if r.Success? then None else Some(r.error))
      ensures r.Success? ==> id in payouts && r.value == payouts[id] && r.value.status.Paid?
      ensures r == Failure(PayoutNotFound) <==> id !in old(payouts)
      ensures r == Failure(PayoutInvalidState) <==> id in old(payouts) && old(payouts)[id].status.Rejected?
      ensures id in old(payouts) && old(payouts)[id].status.Paid? ==>
        r == Success(old(payouts)[id]) && payouts == old(payouts) && ledger == old(ledger)
      ensures id in old(payouts) && (old(payouts)[id].status.New? || old(payouts)[id].status.InProgress?) ==>
        var p := old(payouts)[id];
        && r == Success(PayoutRequest(p.seller, p.brand, p.amount, p.kind, p.masked, Paid, p.adminComment,
                                      if txn.Some? && txn.value != "" then txn else p.externalTxnId, Some(admin)))
        && ledger == old(ledger) + [Row(p.seller, p.brand, -p.amount, PayoutCompleted, Payout(id), Some(admin))]
    {
      hide Balanced, GetSellerBalance;
      if id !in payouts {
        return Failure(PayoutNotFound);
      }
      var payout := payouts[id];
      if payout.status.Paid? {
        // Already paid.
      } else if !payout.status.New? && !payout.status.InProgress? {
        return Failure(PayoutInvalidState);
      } else {
        ghost var before := Db();
        BelowNextId(before, nextId);
        ghost var op := Approve(id, admin, txn);
        payout := payout.(status := Paid, updatedBy := Some(admin));
        if Truthy(txn) {
          payout := payout.(externalTxnId := txn);
        }
        payouts := payouts[id := payout];
        ledger := ledger + [Row(payout.seller, payout.brand, -payout.amount, PayoutCompleted, Payout(id), Some(admin))];
        PerformKeepsBooks(before, op, nextId, nextId, nextId);
      }
      return Success(payout);
    }

    method UpdatePayoutRequest(id: nat, admin: int, amount: Option<int>, comment: Option<string>, txn: Option<string>)
      returns (r: Result<PayoutRequest, Error>)
      requires Valid() && (amount.Some? ==> amount.value > 0)
      modifies `payouts, `ledger, `outbox
      ensures Valid()
      ensures Kept(old(Db()), Update(id, admin, amount, comment, txn), nextId,
                   if r.Success? then None else Some(r.error))
      ensures r.Success? ==> id in payouts && r.value == payouts[id]
      ensures r == Failure(PayoutNotFound) <==> id !in old(payouts)
      ensures r == Failure(PayoutInvalidState)
        <==> id in old(payouts) && (old(payouts)[id].status.Paid? || old(payouts)[id].status.Rejected?)
      ensures r == Failure(InsufficientBalance) ==>
        && id in old(payouts) && amount.Some?
        && GetSellerBalance(old(ledger), old(payouts)[id].seller).available < amount.value - old(payouts)[id].amount
      ensures r.Success? ==>
        && id in old(payouts)
        && var p := old(payouts)[id];
           var newAmount := if amount.Some? then amount.value else p.amount;
           && r.value == PayoutRequest(p.seller, p.brand, newAmount, p.kind, p.masked, p.status,
                                       if comment.Some? then comment else p.adminComment,
                                       if txn.Some? then txn else p.externalTxnId,
                                       if newAmount != p.amount || comment.Some? || txn.Some? then Some(admin)
                                       else p.updatedBy)
           && (newAmount == p.amount ==> ledger == old(ledger) && outbox == old(outbox))
           && (newAmount != p.amount ==>
                 && ledger == old(ledger)
                      + [Row(p.seller, p.brand, p.amount - newAmount, PayoutHold, Payout(id), Some(admin))]
                 && outbox == old(outbox) + [Notice(id, p.seller, newAmount, p.amount, p.masked)])
           && (newAmount > p.amount ==>
                 GetSellerBalance(old(ledger), p.seller).available >= newAmount - p.amount)
    {
      hide Balanced, GetSellerBalance;
      if id !in payouts {
        return Failure(PayoutNotFound);
      }
      var payout := payouts[id];
      if !payout.status.New? && !payout.status.InProgress? {
        return Failure(PayoutInvalidState);
      }
      ghost var before := Db();
      BelowNextId(before, nextId);
      ghost var op := Update(id, admin, amount, comment, txn);
      var oldAmount := payout.amount;
      if amount.Some? && amount.value != oldAmount {
        var delta := amount.value - oldAmount;
        if delta > 0 {
          if payout.seller !in sellers {
            return Failure(SellerNotFound);
          }
          var balance := GetSellerBalance(ledger, payout.seller);
          if balance.available < delta {
            return Failure(InsufficientBalance);
          }
        }
        ledger := ledger + [Row(payout.seller, payout.brand, -delta, PayoutHold, Payout(id), Some(admin))];
        payout := payout.(amount := amount.value, updatedBy := Some(admin));
        outbox := outbox + [Notice(id, payout.seller, amount.value, oldAmount, payout.masked)];
      }
      if comment.Some? {
        payout := payout.(adminComment := comment, updatedBy := Some(admin));
      }
      if txn.Some? {
        payout := payout.(externalTxnId := txn, updatedBy := Some(admin));
      }
      payouts := payouts[id := payout];
      assert Decide(before, op, nextId) == Success(UpdateWrites(op, before.payouts[id]));
      PerformKeepsBooks(before, op, nextId, nextId, nextId);
      return Success(payout);
    }

    method RejectPayoutRequest(id: nat, admin: int, comment: Option<string>) returns (r: Result<PayoutRequest, Error>)
      requires Valid()
      modifies `payouts, `ledger
      ensures Valid()
      ensures Kept(old(Db()), Reject(id, admin, comment), nextId, if r.Success? then None else Some(r.error))
      ensures r.Success? ==> id in payouts && r.value == payouts[id] && r.value.status.Rejected?
      ensures r == Failure(PayoutNotFound) <==> id !in old(payouts)
      ensures r == Failure(PayoutInvalidState) <==> id in old(payouts) && old(payouts)[id].status.Paid?
      ensures id in old(payouts) && old(payouts)[id].status.Rejected? ==>
        r == Success(old(payouts)[id]) && payouts == old(payouts) && ledger == old(ledger)
      ensures id in old(payouts) && (old(payouts)[id].status.New? || old(payouts)[id].status.InProgress?) ==>
        var p := old(payouts)[id];
        && r == Success(PayoutRequest(p.seller, p.brand, p.amount, p.kind, p.masked, Rejected,
                                      if comment.Some? && comment.value != "" then comment else p.adminComment,
                                      p.externalTxnId, Some(admin)))
        && ledger == old(ledger) + [Row(p.seller, p.brand, p.amount, PayoutReverted, Payout(id), Some(admin))]
    {
      hide Balanced, GetSellerBalance;
      if id !in payouts {
        return Failure(PayoutNotFound);
      }
      var payout := payouts[id];
      if payout.status.Rejected? {
        // Already rejected.
      } else if !payout.status.New? && !payout.status.InProgress? {
        return Failure(PayoutInvalidState);
      } else {
        ghost var before := Db();
        BelowNextId(before, nextId);
        ghost var op := Reject(id, admin, comment);
        payout := payout.(status := Rejected, updatedBy := Some(admin));
        if Truthy(comment) {
          payout := payout.(adminComment := comment);
        }
        payouts := payouts[id := payout];
        ledger := ledger + [Row(payout.seller, payout.brand, payout.amount, PayoutReverted, Payout(id), Some(admin))];
        PerformKeepsBooks(before, op, nextId, nextId, nextId);
      }
      return Success(payout);
    }
  }
}
