/**
 Any number of payout calls interleaving over one database under READ COMMITTED.

 Each call is split at the points where PostgreSQL lets others run: SELECT ... FOR UPDATE on
 the request, SELECT ... FOR UPDATE on the seller, the balance query, the flush, the commit.
 A row lock is held until the call commits or aborts. Uncommitted writes are invisible.

 A ledger row refers to its seller by a foreign key, so inserting one takes FOR KEY SHARE on the
 seller row: it waits for another call's FOR UPDATE on that row, and FOR UPDATE waits for it.
 */
module PayoutProtocol {
  import opened Wrappers
  import opened Ledger
  import opened Payouts
  import opened Books

  datatype Phase =
    | Start
    | PayoutLocked(held: PayoutRequest)
    | SellerLocked(row: Option<PayoutRequest>, seller: Seller)
    | BalanceRead(row: Option<PayoutRequest>, seller: Seller, available: int)
    | Staged(writes: Writes)
    | Flushed(writes: Writes)

  datatype Txn = Txn(op: Op, phase: Phase, payoutLock: Option<nat>, sellerLock: Option<int>)

  /**
   `pending` holds the ledger rows that outside transactions have inserted and not yet committed.
   `nextId` is the key sequence of payout_request; a flush consumes a key even if it rolls back.
   */
  datatype State = State(db: Database, txns: map<nat, Txn>, pending: map<nat, Row>, nextTxn: nat, nextId: nat)

  datatype Move = Blocked | Fails(error: Error) | Goes(txn: Txn, takesId: bool) | Commits(writes: Writes)

  datatype Event =
    | Begin(op: Op)
    | Step(txn: nat)
    | Abort(txn: nat)
    | Credit(row: Row)
    | Settle(credit: nat)
    | Withdraw(credit: nat)
    | Join(sellerId: int, seller: Seller)
    | Progress(id: nat)

  predicate PayoutFree(s: State, id: nat, i: nat) {
    forall j :: j in s.txns && j != i ==> s.txns[j].payoutLock != Some(id)
  }

  /** The seller row a flushed ledger row keeps under FOR KEY SHARE. */
  function Pinned(t: Txn): Option<int> {
    if t.phase.Flushed? then RowSeller(t.phase.writes) else None
  }

  function RowSeller(w: Writes): Option<int> {
    if w.Writes? && w.row.Some? then Some(w.row.value.seller) else None
  }

  /** FOR UPDATE on a seller row goes through: nobody else has locked it in either mode. */
  predicate SellerFree(s: State, id: int, i: nat) {
    && (forall j :: j in s.txns && j != i ==> s.txns[j].sellerLock != Some(id) && Pinned(s.txns[j]) != Some(id))
    && (forall k :: k in s.pending ==> s.pending[k].seller != id)
  }

  /** FOR KEY SHARE on a seller row goes through: nobody else has locked it FOR UPDATE. */
  predicate Insertable(s: State, id: int, i: nat) {
    forall j :: j in s.txns && j != i ==> s.txns[j].sellerLock != Some(id)
  }

  /** How much the call is about to take out of `available`. */
  function Extra(op: Op, row: Option<PayoutRequest>): int {
    match op
    case Create(_, sum, _, _) => sum
    case Update(_, _, _, _, _) => if row.Some? then Delta(op, row.value) else 0
    case _ => 0
  }

  function TakeSeller(s: State, i: nat, id: int, row: Option<PayoutRequest>): Move
    requires i in s.txns
  {
    if !SellerFree(s, id, i) then Blocked
    else if id !in s.db.sellers then Fails(SellerNotFound)
    else Goes(s.txns[i].(phase := SellerLocked(row, s.db.sellers[id]), sellerLock := Some(id)), false)
  }

  function StageOr(t: Txn, r: Result<Writes, Error>): Move {
    match r
    case Success(w) => Goes(t.(phase := Staged(w)), false)
    case Failure(e) => Fails(e)
  }

  /** The next small step of call i in state s. */
  function Advance(s: State, i: nat): Move
    requires i in s.txns
  {
    var t := s.txns[i];
    match t.phase
    case Start =>
      if t.op.Create? then TakeSeller(s, i, t.op.seller, None)
      else if !PayoutFree(s, t.op.id, i) then Blocked
      else if t.op.id !in s.db.payouts then Fails(PayoutNotFound)
      else Goes(t.(phase := PayoutLocked(s.db.payouts[t.op.id]), payoutLock := Some(t.op.id)), false)
    case PayoutLocked(p) =>
      (match t.op
       case Approve(_, _, _) => StageOr(t, ApproveWrites(t.op, p))
       case Reject(_, _, _) => StageOr(t, RejectWrites(t.op, p))
       case Update(_, _, _, _, _) =>
         if !Open(p.status) then Fails(PayoutInvalidState)
         else if Delta(t.op, p) > 0 then TakeSeller(s, i, p.seller, Some(p))
         else Goes(t.(phase := Staged(UpdateWrites(t.op, p))), false)
       case Create(_, _, _, _) => Fails(PayoutInvalidState))
    case SellerLocked(row, seller) =>
      if t.op.Create? && MaskedFor(t.op, seller) == "" then Fails(PayoutDetailsRequired)
      else if t.sellerLock.None? then Fails(SellerNotFound)
      else Goes(t.(phase := BalanceRead(row, seller, Available(s.db.ledger, t.sellerLock.value))), false)
    case BalanceRead(row, seller, available) =>
      if available < Extra(t.op, row) then Fails(InsufficientBalance)
      else if t.op.Create? then Goes(t.(phase := Staged(CreateWrites(t.op, s.nextId, seller))), true)
      else if t.op.Update? && row.Some? then Goes(t.(phase := Staged(UpdateWrites(t.op, row.value))), false)
      else Fails(PayoutInvalidState)
    case Staged(w) =>
      if RowSeller(w).Some? && !Insertable(s, RowSeller(w).value, i) then Blocked
      else Goes(t.(phase := Flushed(w)), false)
    case Flushed(w) => Commits(w)
  }

  /** An accrual or correction from outside may be inserted now. */
  predicate Creditable(s: State, r: Row) {
    External(r) && r.seller in s.db.sellers && Insertable(s, r.seller, s.nextTxn)
  }

  /** Disabled events leave the state alone, so every event sequence is a schedule. */
  function Next(s: State, e: Event): State {
    match e
    case Begin(op) =>
      if WellFormed(op) then
        s.(txns := s.txns[s.nextTxn := Txn(op, Start, None, None)], nextTxn := s.nextTxn + 1)
      else s
    case Step(i) =>
      if i !in s.txns then s
      else (match Advance(s, i)
            case Blocked => s
            case Fails(_) => s.(txns := s.txns - {i})
            case Goes(t, takesId) =>
              s.(txns := s.txns[i := t], nextId := if takesId then s.nextId + 1 else s.nextId)
            case Commits(w) => s.(db := Apply(s.db, w), txns := s.txns - {i}))
    case Abort(i) => s.(txns := s.txns - {i})
    case Credit(r) =>
      if Creditable(s, r) then s.(pending := s.pending[s.nextTxn := r], nextTxn := s.nextTxn + 1) else s
    case Settle(k) =>
      if k in s.pending then
        s.(db := s.db.(ledger := s.db.ledger + [s.pending[k]]), pending := s.pending - {k})
      else s
    case Withdraw(k) => s.(pending := s.pending - {k})
    case Join(id, seller) =>
      if id !in s.db.sellers then s.(db := s.db.(sellers := s.db.sellers[id := seller])) else s
    case Progress(id) =>
      if id in s.db.payouts && s.db.payouts[id].status.New? && PayoutFree(s, id, s.nextTxn) then
        s.(db := Apply(s.db, ProgressWrites(s.db, id)))
      else s
  }

  function ProgressWrites(db: Database, id: nat): Writes
    requires id in db.payouts
  {
    Writes(id, db.payouts[id].(status := InProgress), None, None)
  }

  function Exec(s: State, es: seq<Event>): State
    decreases |es|
  {
    if es == [] then s else Exec(Next(s, es[0]), es[1..])
  }

  const EMPTY: State := State(Database(map[], map[], [], []), map[], map[], 0, 0)

  // ---------------------------------------------------------------- solvency

  /** What a commit does to a seller's available balance. */
  function Effect(w: Writes, seller: int): int {
    if RowSeller(w) == Some(seller) && w.row.value.kind != PayoutCompleted then w.row.value.amount else 0
  }

  ghost predicate Solvent(db: Database) {
    forall seller :: Available(db.ledger, seller) >= 0
  }

  /** The seller can afford the correction at the moment it commits. */
  predicate EventCovered(s: State, e: Event) {
    e.Settle? && e.credit in s.pending ==>
      Available(s.db.ledger, s.pending[e.credit].seller) + s.pending[e.credit].amount >= 0
  }

  predicate AllCovered(s: State, es: seq<Event>)
    decreases |es|
  {
    es != [] ==> EventCovered(s, es[0]) && AllCovered(Next(s, es[0]), es[1..])
  }

  // ---------------------------------------------------------------- the invariant

  ghost predicate Holds(db: Database, t: Txn, p: PayoutRequest) {
    !t.op.Create? && t.payoutLock == Some(t.op.id) && t.op.id in db.payouts && db.payouts[t.op.id] == p
  }

  /** The call has locked the seller it is about to charge. */
  ghost predicate Charging(db: Database, t: Txn, row: Option<PayoutRequest>, seller: Seller) {
    && t.sellerLock.Some? && t.sellerLock.value in db.sellers && db.sellers[t.sellerLock.value] == seller
    && (match t.op
        case Create(id, _, _, _) => row.None? && t.payoutLock.None? && t.sellerLock == Some(id)
        case Update(_, _, _, _, _) =>
          && row.Some? && Holds(db, t, row.value) && Open(row.value.status)
          && Delta(t.op, row.value) > 0 && t.sellerLock == Some(row.value.seller)
        case _ => false)
  }

  /** The key a call's writes use: the staged one for a create, and none otherwise. */
  function IdOf(s: State, w: Writes, op: Op): nat {
    if op.Create? && w.Writes? then w.id else s.nextId
  }

  /** The locks a call holds once it has decided what to write. */
  ghost predicate Settled(db: Database, t: Txn) {
    match t.op
    case Create(id, _, _, _) => id in db.sellers && Charging(db, t, None, db.sellers[id])
    case Update(id, _, _, _, _) =>
      && id in db.payouts && Holds(db, t, db.payouts[id])
      && if Delta(t.op, db.payouts[id]) > 0 then
           && db.payouts[id].seller in db.sellers
           && Charging(db, t, Some(db.payouts[id]), db.sellers[db.payouts[id].seller])
         else t.sellerLock.None?
    case _ => t.op.id in db.payouts && Holds(db, t, db.payouts[t.op.id]) && t.sellerLock.None?
  }

  /** What the call has staged is what it would decide on the committed database now. */
  ghost predicate StagedOk(db: Database, nextId: nat, t: Txn, w: Writes) {
    && Settled(db, t)
    && (t.op.Create? ==> w.Writes? && w.id < nextId && w.id !in db.payouts)
    && Decide(db, t.op, if w.Writes? then w.id else 0) == Success(w)
  }

  ghost predicate TxnOk(db: Database, nextId: nat, t: Txn) {
    && WellFormed(t.op)
    && (match t.phase
        case Start => t.payoutLock.None? && t.sellerLock.None?
        case PayoutLocked(p) => Holds(db, t, p) && t.sellerLock.None?
        case SellerLocked(row, seller) => Charging(db, t, row, seller)
        case BalanceRead(row, seller, available) =>
          && Charging(db, t, row, seller) && (t.op.Create? ==> MaskedFor(t.op, seller) != "")
          && available == Available(db.ledger, t.sellerLock.value)
        case Staged(w) => StagedOk(db, nextId, t, w)
        case Flushed(w) => StagedOk(db, nextId, t, w))
  }

  predicate Decided(t: Txn) {
    t.phase.Staged? || t.phase.Flushed?
  }

  predicate Apart(a: Txn, b: Txn) {
    && (a.payoutLock.Some? ==> a.payoutLock != b.payoutLock)
    && (a.sellerLock.Some? ==> a.sellerLock != b.sellerLock && a.sellerLock != Pinned(b))
    && (a.op.Create? && b.op.Create? && Decided(a) && Decided(b) && a.phase.writes.Writes? && b.phase.writes.Writes?
        ==> a.phase.writes.id != b.phase.writes.id)
  }

  /** Says nothing about solvency: it holds in every reachable state, overdrawn ones included. */
  ghost predicate Inv(s: State) {
    && Balanced(s.db, s.nextId)
    && (forall i :: i in s.txns ==> i < s.nextTxn && TxnOk(s.db, s.nextId, s.txns[i]))
    && (forall i, j :: i in s.txns && j in s.txns && i != j ==> Apart(s.txns[i], s.txns[j]))
    && (forall k :: k in s.pending ==> External(s.pending[k]))
    && (forall i, k :: i in s.txns && k in s.pending ==> s.txns[i].sellerLock != Some(s.pending[k].seller))
  }
}
