/** Which receipt status changes are allowed to whom (receipt_pipeline/state_machine.py). */
module ReceiptStatus {
  datatype Status = Pending | OcrInProgress | OnReview | Approved | Rejected | NeedsRevision | PaidOut

  datatype Actor = System | Admin | Seller

  function Actors(from: Status, to: Status): set<Actor> {
    match (from, to)
    case (Pending, OnReview) => {System}
    case (Pending, OcrInProgress) => {System}
    case (OcrInProgress, NeedsRevision) => {System}
    case (OcrInProgress, OnReview) => {System}
    case (OcrInProgress, Rejected) => {System}
    case (OcrInProgress, Approved) => {System}
    case (NeedsRevision, OcrInProgress) => {System}
    case (NeedsRevision, Rejected) => {Admin}
    case (OnReview, Approved) => {Admin}
    case (OnReview, Rejected) => {Admin}
    case (OnReview, NeedsRevision) => {Admin}
    case (OnReview, OcrInProgress) => {System}
    case (Approved, PaidOut) => {System}
    case (Approved, Rejected) => {Admin}
    case _ => {}
  }

  predicate CanTransition(from: Status, to: Status, actor: Actor) {
    actor in Actors(from, to)
  }

  function AllowedNext(from: Status, actor: Actor): set<Status> {
    set to: Status | actor in Actors(from, to)
  }

  predicate Terminal(s: Status) {
    s.Approved? || s.Rejected? || s.PaidOut?
  }

  /** Every non-terminal status can be taken into processing, and processing can hand over to review. */
  lemma ProcessingIsReachable(s: Status)
    ensures s == OcrInProgress || OcrInProgress in AllowedNext(s, System) <==> !Terminal(s)
    ensures OnReview in AllowedNext(OcrInProgress, System)
    ensures s == Rejected || s == PaidOut <==> forall actor, to :: !CanTransition(s, to, actor)
  {
    if s == Pending || s == NeedsRevision || s == OnReview {
      assert CanTransition(s, OcrInProgress, System);
    } else if s == OcrInProgress {
      assert CanTransition(s, OnReview, System);
    } else if s == Approved {
      assert CanTransition(s, PaidOut, System);
    }
  }

  /**
   Sellers change nothing. Once a receipt is on review only an admin decides it; the system approves or
   rejects on its own only while processing, pays out only what was approved, and nothing goes back to pending.
   */
  lemma WhoDecides(from: Status, to: Status, actor: Actor)
    requires CanTransition(from, to, actor)
    ensures from != to && actor != Seller && to != Pending
    ensures from == OnReview && to != OcrInProgress ==> actor == Admin
    ensures actor == System && (to == Approved || to == Rejected) ==> from == OcrInProgress
    ensures to == PaidOut <==> from == Approved && actor == System
    ensures to == Approved ==> from == OcrInProgress || from == OnReview
    ensures Terminal(from) ==> from == Approved && (to == PaidOut || (to == Rejected && actor == Admin))
  {
  }

  /** Where each actor may take a receipt from each status. */
  lemma NextStatuses(s: Status)
    ensures AllowedNext(s, Seller) == {}
    ensures AllowedNext(s, System) ==
      match s
      case Pending => {OnReview, OcrInProgress}
      case OcrInProgress => {NeedsRevision, OnReview, Rejected, Approved}
      case NeedsRevision => {OcrInProgress}
      case OnReview => {OcrInProgress}
      case Approved => {PaidOut}
      case Rejected => {}
      case PaidOut => {}
    ensures AllowedNext(s, Admin) ==
      match s
      case OnReview => {Approved, Rejected, NeedsRevision}
      case NeedsRevision => {Rejected}
      case Approved => {Rejected}
      case _ => {}
    ensures forall actor, to :: to in AllowedNext(s, actor) <==> CanTransition(s, to, actor)
  {
  }

  /** A list of status writes, each a system edge from the status before it. */
  predicate SystemPath(from: Status, writes: seq<Status>)
    decreases |writes|
  {
    writes != [] ==> CanTransition(from, writes[0], System) && SystemPath(writes[0], writes[1..])
  }
}
