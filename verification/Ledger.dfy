/**
 The append-only bonus ledger and the seller balance that is folded out of it
 (bonus_transaction/models.py, seller/services/balance_service.py).
 Amounts are signed kopecks.
 */
module Ledger {
  import opened Wrappers

  datatype Kind =
    | AccrualReceipt
    | AccrualPromo
    | AccrualManual
    | PayoutHold
    | PayoutCompleted
    | PayoutReverted
    | Correction

  /** source_type together with source_id. */
  datatype Source = Receipt(receiptId: int) | Payout(payoutId: nat) | Admin

  datatype Row = Row(seller: int, brand: int, amount: int, kind: Kind, source: Source, createdBy: Option<int>)

  const ACCRUAL_KINDS: set<Kind> := {AccrualReceipt, AccrualPromo, AccrualManual}
  const AVAILABLE_ACCRUAL_KINDS: set<Kind> := ACCRUAL_KINDS + {PayoutReverted, Correction}
  const TOTAL_ACCRUED_KINDS: set<Kind> := ACCRUAL_KINDS + {Correction}

  datatype Balance = Balance(available: int, onHold: int, totalAccrued: int, totalPaidOut: int)

  /** SUM(amount) FILTER (WHERE kind IN kinds) over one seller's rows; 0 for no rows. */
  function SumOf(rows: seq<Row>, seller: int, kinds: set<Kind>): int {
    if rows == [] then 0
    else
      var last := rows[|rows| - 1];
      SumOf(rows[..|rows| - 1], seller, kinds) + if last.seller == seller && last.kind in kinds then last.amount else 0
  }

  function Abs(n: int): int {
    if n < 0 then -n else n
  }

  function GetSellerBalance(rows: seq<Row>, seller: int): Balance {
    var holds := SumOf(rows, seller, {PayoutHold});
    Balance(
      SumOf(rows, seller, AVAILABLE_ACCRUAL_KINDS) + holds,
      Abs(holds),
      SumOf(rows, seller, TOTAL_ACCRUED_KINDS),
      Abs(SumOf(rows, seller, {PayoutCompleted})))
  }

  function Available(rows: seq<Row>, seller: int): int {
    GetSellerBalance(rows, seller).available
  }

  /** The amounts of the rows of one kind written for one payout request, oldest first. */
  function AmountsOf(rows: seq<Row>, kind: Kind, id: nat): seq<int> {
    if rows == [] then []
    else
      var last := rows[|rows| - 1];
      AmountsOf(rows[..|rows| - 1], kind, id)
      + if last.kind == kind && last.source == Payout(id) then [last.amount] else []
  }

  function Sum(xs: seq<int>): int {
    if xs == [] then 0 else Sum(xs[..|xs| - 1]) + xs[|xs| - 1]
  }

  /** What one appended row does to a conditional sum. */
  lemma SumAppend(rows: seq<Row>, r: Row, seller: int, kinds: set<Kind>)
    ensures SumOf(rows + [r], seller, kinds)
         == SumOf(rows, seller, kinds) + if r.seller == seller && r.kind in kinds then r.amount else 0
  {
    assert (rows + [r])[..|rows|] == rows;
  }

  lemma AmountsAppend(rows: seq<Row>, r: Row, kind: Kind, id: nat)
    ensures AmountsOf(rows + [r], kind, id)
         == AmountsOf(rows, kind, id) + if r.kind == kind && r.source == Payout(id) then [r.amount] else []
  {
    assert (rows + [r])[..|rows|] == rows;
  }

  /** Every kind moves `available` except payout_completed, which moves only `total_paid_out`. */
  lemma AvailableAppend(rows: seq<Row>, r: Row, seller: int)
    ensures Available(rows + [r], seller)
         == Available(rows, seller) + if r.seller == seller && r.kind != PayoutCompleted then r.amount else 0
  {
    hide SumOf;
    SumAppend(rows, r, seller, AVAILABLE_ACCRUAL_KINDS);
    SumAppend(rows, r, seller, {PayoutHold});
  }

  /** Accruals of every kind and corrections move `total_accrued`; the rows of a payout never do. */
  lemma AccruedAppend(rows: seq<Row>, r: Row, seller: int)
    ensures GetSellerBalance(rows + [r], seller).totalAccrued
         == GetSellerBalance(rows, seller).totalAccrued
            + if r.seller == seller && r.kind !in {PayoutHold, PayoutCompleted, PayoutReverted} then r.amount else 0
  {
    hide SumOf;
    SumAppend(rows, r, seller, TOTAL_ACCRUED_KINDS);
    assert r.kind in TOTAL_ACCRUED_KINDS <==> r.kind !in {PayoutHold, PayoutCompleted, PayoutReverted} by {
      match r.kind
      case AccrualReceipt =>
      case AccrualPromo =>
      case AccrualManual =>
      case Correction =>
      case _ =>
    }
  }
}
