/**
 Payout requests as the database holds them, and each service call as one atomic
 function of the committed database (payout_request/service.py).
 */
module Payouts {
  import opened Wrappers
  import opened Ledger

  datatype Status = New | InProgress | Paid | Rejected

  datatype Seller = Seller(brand: int, masked: string)

  datatype PayoutRequest = PayoutRequest(
    seller: int,
    brand: int,
    amount: int,
    kind: string,
    masked: string,
    status: Status,
    adminComment: Option<string>,
    externalTxnId: Option<string>,
    updatedBy: Option<int>)

  /**
   A payout.amount_changed outbox row. The payload the seller sees is amount, oldAmount and
   masked; `request` is the request the row was written for and is not part of the payload.
   */
  datatype Notice = Notice(request: nat, recipient: int, amount: int, oldAmount: int, masked: string)

  datatype Database = Database(
    sellers: map<int, Seller>,
    payouts: map<nat, PayoutRequest>,
    ledger: seq<Row>,
    outbox: seq<Notice>)

  datatype Error =
    | SellerNotFound
    | PayoutDetailsRequired
    | InsufficientBalance
    | PayoutNotFound
    | PayoutInvalidState

  datatype Op =
    | Create(seller: int, sum: int, kind: string, maskedOverride: Option<string>)
    | Approve(id: nat, admin: int, txn: Option<string>)
    | Update(id: nat, admin: int, newAmount: Option<int>, comment: Option<string>, txn: Option<string>)
    | Reject(id: nat, admin: int, comment: Option<string>)

  /** What the request schemas let through: amounts are strictly positive. */
  predicate WellFormed(op: Op) {
    match op
    case Create(_, sum, _, _) => sum > 0
    case Update(_, _, newAmount, _, _) => newAmount.Some? ==> newAmount.value > 0
    case _ => true
  }

  predicate Open(s: Status) {
    s.New? || s.InProgress?
  }

  // ---------------------------------------------------------------- buffered writes

  /** What one call adds to its session before the commit. */
  datatype Writes =
    | Nothing
    | Writes(id: nat, payout: PayoutRequest, row: Option<Row>, notice: Option<Notice>)

  function Apply(db: Database, w: Writes): Database {
    match w
    case Nothing => db
    case Writes(id, payout, row, notice) =>
      Database(
        db.sellers,
        db.payouts[id := payout],
        if row.Some? then db.ledger + [row.value] else db.ledger,
        if notice.Some? then db.outbox + [notice.value] else db.outbox)
  }

  function MaskedFor(op: Op, s: Seller): string
    requires op.Create?
  {
    if Truthy(op.maskedOverride) then op.maskedOverride.value else s.masked
  }

  function CreateWrites(op: Op, id: nat, s: Seller): Writes
    requires op.Create?
  {
    Writes(
      id,
      PayoutRequest(op.seller, s.brand, op.sum, op.kind, MaskedFor(op, s), New, None, None, None),
      Some(Row(op.seller, s.brand, -op.sum, PayoutHold, Payout(id), None)),
      None)
  }

  function ApproveWrites(op: Op, p: PayoutRequest): Result<Writes, Error>
    requires op.Approve?
  {
    if p.status.Paid? then Success(Nothing)
    else if !Open(p.status) then Failure(PayoutInvalidState)
    else Success(Writes(
      op.id,
      p.(status := Paid,
         updatedBy := Some(op.admin),
         externalTxnId := if Truthy(op.txn) then op.txn else p.externalTxnId),
      Some(Row(p.seller, p.brand, -p.amount, PayoutCompleted, Payout(op.id), Some(op.admin))),
      None))
  }

  function RejectWrites(op: Op, p: PayoutRequest): Result<Writes, Error>
    requires op.Reject?
  {
    if p.status.Rejected? then Success(Nothing)
    else if !Open(p.status) then Failure(PayoutInvalidState)
    else Success(Writes(
      op.id,
      p.(status := Rejected,
         updatedBy := Some(op.admin),
         adminComment := if Truthy(op.comment) then op.comment else p.adminComment),
      Some(Row(p.seller, p.brand, p.amount, PayoutReverted, Payout(op.id), Some(op.admin))),
      None))
  }

  /** The change of amount an edit asks for: 0 when it asks for none. */
  function Delta(op: Op, p: PayoutRequest): int
    requires op.Update?
  {
    if op.newAmount.Some? then op.newAmount.value - p.amount else 0
  }

  function UpdateWrites(op: Op, p: PayoutRequest): Writes
    requires op.Update?
  {
    var d := Delta(op, p);
    var touched := d != 0 || op.comment.Some? || op.txn.Some?;
    Writes(
      op.id,
      p.(amount := p.amount + d,
         adminComment := if op.comment.Some? then op.comment else p.adminComment,
         externalTxnId := if op.txn.Some? then op.txn else p.externalTxnId,
         updatedBy := if touched then Some(op.admin) else p.updatedBy),
      if d != 0 then Some(Row(p.seller, p.brand, -d, PayoutHold, Payout(op.id), Some(op.admin))) else None,
      if d != 0 then Some(Notice(op.id, p.seller, p.amount + d, p.amount, p.masked)) else None)
  }

  // ---------------------------------------------------------------- one call, run alone

  /** What a call would buffer if nobody else were running; `id` is the key the sequence hands out. */
  function Decide(db: Database, op: Op, id: nat): Result<Writes, Error> {
    match op
    case Create(seller, sum, _, _) =>
      if seller !in db.sellers then Failure(SellerNotFound)
      else if MaskedFor(op, db.sellers[seller]) == "" then Failure(PayoutDetailsRequired)
      else if Available(db.ledger, seller) < sum then Failure(InsufficientBalance)
      else Success(CreateWrites(op, id, db.sellers[seller]))
    case Approve(pid, _, _) =>
      if pid !in db.payouts then Failure(PayoutNotFound) else ApproveWrites(op, db.payouts[pid])
    case Reject(pid, _, _) =>
      if pid !in db.payouts then Failure(PayoutNotFound) else RejectWrites(op, db.payouts[pid])
    case Update(pid, _, _, _, _) =>
      if pid !in db.payouts then Failure(PayoutNotFound)
      else
        var p := db.payouts[pid];
        var d := Delta(op, p);
        if !Open(p.status) then Failure(PayoutInvalidState)
        else if d > 0 && p.seller !in db.sellers then Failure(SellerNotFound)
        else if d > 0 && Available(db.ledger, p.seller) < d then Failure(InsufficientBalance)
        else Success(UpdateWrites(op, p))
  }

  function Perform(db: Database, op: Op, id: nat): Result<Database, Error> {
    match Decide(db, op, id)
    case Success(w) => Success(Apply(db, w))
    case Failure(e) => Failure(e)
  }
}
