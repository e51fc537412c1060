/**
 Notification outbox rows and what one delivery attempt does to a row
 (notification/outbox.py, notification/worker.py). Times are seconds.
 */
module Outbox {
  import opened Wrappers

  datatype Status = Pending | Sent | Dead

  datatype Channel = Telegram | InApp | OtherChannel(name: string)

  datatype Template = ReceiptApproved | ReceiptRejected | PayoutSent | OtherTemplate(key: string)

  /** The notification types the worker can write. */
  datatype NoteType = ReceiptApprovedNote | ReceiptRejectedNote | PayoutSentNote

  datatype OutboxRow = OutboxRow(
    recipient: int,
    channel: Channel,
    template: Template,
    payload: string,
    status: Status,
    attempts: nat,
    scheduledAt: int,
    sentAt: Option<int>)

  /** A row of the in-app notification table; `source` is the outbox row it came from. */
  datatype Note = Note(source: nat, seller: int, kind: NoteType, payload: string, sentAt: int)

  const MINUTE := 60
  const BACKOFF: seq<int> := [1 * MINUTE, 5 * MINUTE, 30 * MINUTE, 120 * MINUTE, 720 * MINUTE]
  const MAX_ATTEMPTS := 5
  const BATCH_SIZE := 50
  const DEFAULT_RETRY_AFTER := 60

  /**
   How the call to Telegram ended, as the worker sees it; irrelevant for other channels. The worker
   cannot see `accepted`: Telegram took the message, but the reply was lost or was an error.
   */
  datatype Outcome =
    | Delivered
    | HttpError(code: int, retryAfter: Option<int>, accepted: bool)
    | SendFailed(accepted: bool)

  predicate Accepted(outcome: Outcome) {
    outcome.Delivered? || outcome.accepted
  }

  datatype Verdict = WasSent | Retry(backoffIndex: nat) | RateLimited(delay: int) | Died

  /** mark_failed: the fifth failure kills the row, so the last backoff entry is never used. */
  function MarkFailed(row: OutboxRow): Verdict {
    if row.attempts + 1 >= MAX_ATTEMPTS then Died
    else Retry(if row.attempts < |BACKOFF| - 1 then row.attempts else |BACKOFF| - 1)
  }

  function NoteKind(template: Template): Option<NoteType> {
    match template
    case ReceiptApproved => Some(ReceiptApprovedNote)
    case ReceiptRejected => Some(ReceiptRejectedNote)
    case PayoutSent => Some(PayoutSentNote)
    case OtherTemplate(_) => None
  }

  function Judge(row: OutboxRow, outcome: Outcome): Verdict {
    match row.channel
    case Telegram =>
      (match outcome
       case Delivered => WasSent
       case SendFailed(_) => MarkFailed(row)
       case HttpError(code, retryAfter, _) =>
         if code == 429 then RateLimited(if retryAfter.Some? then retryAfter.value else DEFAULT_RETRY_AFTER)
         else if 400 <= code < 500 then Died
         else MarkFailed(row))
    case InApp => if NoteKind(row.template).Some? then WasSent else MarkFailed(row)
    case OtherChannel(_) => MarkFailed(row)
  }

  function Stamp(row: OutboxRow, v: Verdict, now: int): OutboxRow {
    match v
    case WasSent => row.(status := Sent, sentAt := Some(now))
    case Retry(i) =>
      row.(attempts := row.attempts + 1, scheduledAt := now + if i < |BACKOFF| then BACKOFF[i] else 0)
    case RateLimited(delay) => row.(attempts := row.attempts + 1, scheduledAt := now + delay)
    case Died => row.(status := Dead, attempts := row.attempts + 1)
  }

  /**
   One finished attempt: the row as it was loaded, how delivery went, and two readings of the clock, one
   for the row and one for the in-app notification.
   */
  datatype Attempt = Attempt(id: nat, row: OutboxRow, outcome: Outcome, at: int, noted: int)

  function VerdictOf(a: Attempt): Verdict {
    Judge(a.row, a.outcome)
  }

  function After(a: Attempt): OutboxRow {
    Stamp(a.row, VerdictOf(a), a.at)
  }

  /** The attempt reached Telegram and was accepted there: an effect no rollback takes back. */
  predicate Posted(a: Attempt) {
    a.row.channel.Telegram? && Accepted(a.outcome)
  }

  /** Accepted, but the worker took it for a failure. */
  predicate Missed(a: Attempt) {
    Posted(a) && !a.outcome.Delivered?
  }

  function NotesOf(a: Attempt): seq<Note> {
    if a.row.channel.InApp? && NoteKind(a.row.template).Some?
    then [Note(a.id, a.row.recipient, NoteKind(a.row.template).value, a.row.payload, a.noted)]
    else []
  }

  // ---------------------------------------------------------------- what an attempt does

  /** A failure that counts towards the budget: no answer, a server error, or a row nobody can deliver. */
  predicate OrdinaryFailure(row: OutboxRow, outcome: Outcome) {
    match row.channel
    case Telegram => outcome.SendFailed? || (outcome.HttpError? && !(400 <= outcome.code < 500))
    case InApp => row.template.OtherTemplate?
    case OtherChannel(_) => true
  }

  /** The part of a row that no attempt ever changes. */
  predicate SameMessage(a: OutboxRow, b: OutboxRow) {
    a.recipient == b.recipient && a.channel == b.channel && a.template == b.template && a.payload == b.payload
  }

  /** One, five, thirty minutes and two hours after the first four failures; the fifth is the last. */
  lemma FailureDelays(a: Attempt)
    requires a.row.status.Pending? && OrdinaryFailure(a.row, a.outcome)
    ensures SameMessage(After(a), a.row) && After(a).attempts == a.row.attempts + 1 && After(a).sentAt == a.row.sentAt
    ensures a.row.attempts >= 4 ==> After(a).status.Dead?
    ensures a.row.attempts < 4 ==>
      && After(a).status.Pending?
      && After(a).scheduledAt - a.at
         == if a.row.attempts == 0 then 60
            else if a.row.attempts == 1 then 300
            else if a.row.attempts == 2 then 1800
            else 7200
  {
  }

  /** A 429 postpones by what Telegram asks for, or by a minute; any other 4xx is final at once. */
  lemma ClientErrors(a: Attempt)
    requires a.row.status.Pending? && a.row.channel.Telegram? && a.outcome.HttpError? && 400 <= a.outcome.code < 500
    ensures SameMessage(After(a), a.row) && After(a).attempts == a.row.attempts + 1 && After(a).sentAt == a.row.sentAt
    ensures a.outcome.code == 429 ==>
      && After(a).status.Pending?
      && After(a).scheduledAt == a.at + if a.outcome.retryAfter.Some? then a.outcome.retryAfter.value else 60
    ensures a.outcome.code != 429 ==> After(a).status.Dead?
  {
  }

  /** Otherwise the row is sent; in the app that is one notification of the template's own type. */
  lemma Successes(a: Attempt)
    requires a.row.status.Pending? && !OrdinaryFailure(a.row, a.outcome)
    requires a.row.channel.Telegram? ==> a.outcome.Delivered?
    ensures SameMessage(After(a), a.row) && After(a).attempts == a.row.attempts
    ensures After(a).status.Sent? && After(a).sentAt == Some(a.at)
    ensures a.row.channel.InApp? ==>
      && |NotesOf(a)| == 1 && NotesOf(a)[0].source == a.id && NotesOf(a)[0].seller == a.row.recipient
      && NotesOf(a)[0].payload == a.row.payload && NotesOf(a)[0].sentAt == a.noted
      && (NotesOf(a)[0].kind.ReceiptApprovedNote? <==> a.row.template.ReceiptApproved?)
      && (NotesOf(a)[0].kind.ReceiptRejectedNote? <==> a.row.template.ReceiptRejected?)
      && (NotesOf(a)[0].kind.PayoutSentNote? <==> a.row.template.PayoutSent?)
    ensures !a.row.channel.InApp? ==> NotesOf(a) == []
  {
  }

  // ---------------------------------------------------------------- the life of one row

  /** Status and attempts after a history of verdicts. */
  function StatusAfter(h: seq<Verdict>): Status {
    if h == [] then Pending
    else
      match h[|h| - 1]
      case WasSent => Sent
      case Died => Dead
      case _ => StatusAfter(h[..|h| - 1])
  }

  function Failures(h: seq<Verdict>): nat {
    if h == [] then 0 else Failures(h[..|h| - 1]) + if h[|h| - 1].WasSent? then 0 else 1
  }

  function Retries(h: seq<Verdict>): nat {
    if h == [] then 0 else Retries(h[..|h| - 1]) + if h[|h| - 1].Retry? then 1 else 0
  }

  function RateLimits(h: seq<Verdict>): nat {
    if h == [] then 0 else RateLimits(h[..|h| - 1]) + if h[|h| - 1].RateLimited? then 1 else 0
  }

  /** The backoff a history has scheduled; 429 delays are Telegram's own choice and not counted. */
  function BackoffTime(h: seq<Verdict>): int {
    if h == [] then 0
    else
      var last := h[|h| - 1];
      BackoffTime(h[..|h| - 1])
      + if last.Retry? && last.backoffIndex < |BACKOFF| then BACKOFF[last.backoffIndex] else 0
  }

  /** Each verdict was reached on a pending row with the attempts counted so far. */
  predicate Lived(h: seq<Verdict>) {
    h != [] ==>
      var before := h[..|h| - 1];
      && Lived(before)
      && StatusAfter(before) == Pending
      && (h[|h| - 1].Retry? ==>
            && Failures(before) + 1 < MAX_ATTEMPTS
            && h[|h| - 1].backoffIndex == Failures(before))
  }

  /** Total backoff after the first k entries of the table. */
  function BackoffUpTo(k: nat): int
    requires k <= |BACKOFF|
  {
    if k == 0 then 0 else BackoffUpTo(k - 1) + BACKOFF[k - 1]
  }

  function AtMostFour(n: nat): nat {
    if n < 4 then n else 4
  }

  lemma {:induction false} BudgetStep(h: seq<Verdict>)
    requires Lived(h)
    ensures Retries(h) <= AtMostFour(Failures(h))
    ensures BackoffTime(h) <= BackoffUpTo(AtMostFour(Failures(h)))
    ensures |h| == Retries(h) + RateLimits(h) + if StatusAfter(h) == Pending then 0 else 1
    ensures forall i :: 0 <= i < |h| && h[i].Retry? ==> h[i].backoffIndex <= 3
  {
    if h != [] {
      var before := h[..|h| - 1];
      BudgetStep(before);
      assert forall i :: 0 <= i < |before| ==> before[i] == h[i];
      assert BackoffUpTo(AtMostFour(Failures(before))) <= BackoffUpTo(AtMostFour(Failures(before) + 1));
    }
  }

  /**
   The retry budget: at most four scheduled retries, at most five attempts besides the rate-limited
   ones, never the twelve-hour entry, and at most 156 minutes of backoff, with or without 429s.
   */
  lemma RetryBudget(h: seq<Verdict>)
    requires Lived(h)
    ensures Retries(h) <= 4
    ensures |h| <= 5 + RateLimits(h)
    ensures BackoffTime(h) <= 156 * MINUTE
    ensures forall i :: 0 <= i < |h| && h[i].Retry? ==> h[i].backoffIndex <= 3
  {
    BudgetStep(h);
    assert BackoffUpTo(4) == 156 * MINUTE;
    assert forall k: nat :: k < 4 ==> BackoffUpTo(k) <= BackoffUpTo(k + 1);
    assert BackoffUpTo(AtMostFour(Failures(h))) <= BackoffUpTo(4);
  }

  /** A verdict on a pending row extends its life. */
  lemma LifeGoesOn(h: seq<Verdict>, a: Attempt)
    requires Lived(h) && StatusAfter(h) == Pending == a.row.status && a.row.attempts == Failures(h)
    ensures Lived(h + [VerdictOf(a)])
    ensures After(a).status == StatusAfter(h + [VerdictOf(a)])
    ensures After(a).attempts == Failures(h + [VerdictOf(a)])
  {
    assert (h + [VerdictOf(a)])[..|h|] == h;
  }

  /**
   A 429 raises the attempt counter but never kills the row, however high the counter is; it does
   bring the row closer to death, which any other failure then causes once four have been counted.
   */
  lemma RateLimitNeverKills(row: OutboxRow, retryAfter: Option<int>, accepted: bool, now: int)
    requires row.channel.Telegram? && row.status.Pending?
    ensures
      var after := Stamp(row, Judge(row, HttpError(429, retryAfter, accepted)), now);
      && after.status.Pending? && after.attempts == row.attempts + 1
      && (Judge(after, SendFailed(false)).Died? <==> row.attempts >= 3)
  {
  }
}
