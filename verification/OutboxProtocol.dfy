/**
 Several workers draining one outbox: SELECT ... FOR UPDATE SKIP LOCKED, one transaction per
 batch, sends that no rollback can take back, and crashes at any point.
 */
module OutboxProtocol {
  import opened Wrappers
  import opened Outbox

  /** A live transaction: rows still to process, as loaded, and finished attempts. */
  datatype Batch = Batch(todo: seq<(nat, OutboxRow)>, finished: seq<Attempt>)

  /**
   rows, notes and journal are committed. posts counts per row the messages Telegram accepted; lost
   those whose batch rolled back; missed those that a committed attempt took for failures. log lists the
   committed attempts. posts, lost, missed, journal and log only observe; no step reads them.
   */
  datatype State = State(
    rows: map<nat, OutboxRow>,
    notes: seq<Note>,
    journal: seq<(nat, Verdict)>,
    log: seq<Attempt>,
    batches: map<nat, Batch>,
    posts: multiset<nat>,
    lost: multiset<nat>,
    missed: multiset<nat>,
    now: int,
    nextRow: nat,
    nextBatch: nat)

  datatype Event =
    | Enqueue(recipient: int, channel: Channel, template: Template, payload: string, at: Option<int>)
    | Tick(seconds: nat)
    | Drain(ids: seq<nat>)
    | Process(batch: nat, outcome: Outcome, noted: int)
    | Commit(batch: nat)
    | Rollback(batch: nat)

  predicate InBatch(b: Batch, id: nat) {
    || (exists k :: 0 <= k < |b.todo| && b.todo[k].0 == id)
    || (exists k :: 0 <= k < |b.finished| && b.finished[k].id == id)
  }

  predicate Locked(s: State, id: nat) {
    exists b :: b in s.batches && InBatch(s.batches[b], id)
  }

  predicate Due(s: State, id: nat) {
    id in s.rows && s.rows[id].status.Pending? && s.rows[id].scheduledAt <= s.now
  }

  /**
   What the drain query may return. SKIP LOCKED tests each row at its own moment, so a due row that is
   unlocked in between may be missing, and READ COMMITTED promises no order among rows it waited for.
   */
  predicate Drainable(s: State, ids: seq<nat>) {
    && |ids| <= BATCH_SIZE
    && (forall k :: 0 <= k < |ids| ==> Due(s, ids[k]) && !Locked(s, ids[k]))
    && (forall k, l :: 0 <= k < l < |ids| ==> ids[k] != ids[l])
  }

  function Load(rows: map<nat, OutboxRow>, ids: seq<nat>): (todo: seq<(nat, OutboxRow)>)
    requires forall k :: 0 <= k < |ids| ==> ids[k] in rows
    ensures |todo| == |ids|
    ensures forall k :: 0 <= k < |ids| ==> todo[k] == (ids[k], rows[ids[k]])
  {
    if ids == [] then [] else [(ids[0], rows[ids[0]])] + Load(rows, ids[1..])
  }

  // The committed effect of finished attempts, in order.

  function RowsAfter(rows: map<nat, OutboxRow>, done: seq<Attempt>): map<nat, OutboxRow> {
    if done == [] then rows
    else
      var last := done[|done| - 1];
      RowsAfter(rows, done[..|done| - 1])[last.id := After(last)]
  }

  function NotesAfter(done: seq<Attempt>): seq<Note> {
    if done == [] then [] else NotesAfter(done[..|done| - 1]) + NotesOf(done[|done| - 1])
  }

  function JournalAfter(done: seq<Attempt>): seq<(nat, Verdict)> {
    if done == [] then []
    else JournalAfter(done[..|done| - 1]) + [(done[|done| - 1].id, VerdictOf(done[|done| - 1]))]
  }

  function PostsIn(done: seq<Attempt>): multiset<nat> {
    if done == [] then multiset{}
    else PostsIn(done[..|done| - 1]) + if Posted(done[|done| - 1]) then multiset{done[|done| - 1].id} else multiset{}
  }

  function MissedIn(done: seq<Attempt>): multiset<nat> {
    if done == [] then multiset{}
    else MissedIn(done[..|done| - 1]) + if Missed(done[|done| - 1]) then multiset{done[|done| - 1].id} else multiset{}
  }

  function Next(s: State, e: Event): State {
    match e
    case Enqueue(recipient, channel, template, payload, at) =>
      var due := if at.Some? then at.value else s.now;
      var row := OutboxRow(recipient, channel, template, payload, Pending, 0, due, None);
      s.(rows := s.rows[s.nextRow := row], nextRow := s.nextRow + 1)
    case Tick(seconds) => s.(now := s.now + seconds)
    case Drain(ids) =>
      if Drainable(s, ids) then
        s.(batches := s.batches[s.nextBatch := Batch(Load(s.rows, ids), [])], nextBatch := s.nextBatch + 1)
      else s
    case Process(b, outcome, noted) =>
      if b in s.batches && s.batches[b].todo != [] then
        var batch := s.batches[b];
        var a := Attempt(batch.todo[0].0, batch.todo[0].1, outcome, s.now, noted);
        s.(batches := s.batches[b := Batch(batch.todo[1..], batch.finished + [a])],
           posts := if Posted(a) then s.posts + multiset{a.id} else s.posts)
      else s
    case Commit(b) =>
      if b in s.batches && s.batches[b].todo == [] then
        var done := s.batches[b].finished;
        s.(rows := RowsAfter(s.rows, done),
           notes := s.notes + NotesAfter(done),
           journal := s.journal + JournalAfter(done),
           log := s.log + done,
           missed := s.missed + MissedIn(done),
           batches := s.batches - {b})
      else s
    case Rollback(b) =>
      if b in s.batches then
        s.(batches := s.batches - {b}, lost := s.lost + PostsIn(s.batches[b].finished))
      else s
  }

  function Exec(s: State, es: seq<Event>): State
    decreases |es|
  {
    if es == [] then s else Exec(Next(s, es[0]), es[1..])
  }

  const EMPTY: State := State(map[], [], [], [], map[], multiset{}, multiset{}, multiset{}, 0, 0, 0)

  // ---------------------------------------------------------------- the invariant

  function HistoryOf(journal: seq<(nat, Verdict)>, id: nat): seq<Verdict> {
    if journal == [] then []
    else
      HistoryOf(journal[..|journal| - 1], id)
      + if journal[|journal| - 1].0 == id then [journal[|journal| - 1].1] else []
  }

  function NotesFor(notes: seq<Note>, id: nat): seq<Note> {
    if notes == [] then []
    else NotesFor(notes[..|notes| - 1], id) + if notes[|notes| - 1].source == id then [notes[|notes| - 1]] else []
  }

  /** The rows a batch works on, finished ones first. */
  function Held(b: Batch): seq<nat> {
    seq(|b.finished|, k requires 0 <= k < |b.finished| => b.finished[k].id)
    + seq(|b.todo|, k requires 0 <= k < |b.todo| => b.todo[k].0)
  }

  predicate Distinct(ids: seq<nat>) {
    forall k, l :: 0 <= k < l < |ids| ==> ids[k] != ids[l]
  }

  /** Every loaded row is still what the table holds. */
  predicate Fresh(rows: map<nat, OutboxRow>, b: Batch) {
    && (forall k :: 0 <= k < |b.todo| ==>
          b.todo[k].0 in rows && rows[b.todo[k].0] == b.todo[k].1 && b.todo[k].1.status.Pending?)
    && (forall k :: 0 <= k < |b.finished| ==>
          b.finished[k].id in rows && rows[b.finished[k].id] == b.finished[k].row && b.finished[k].row.status.Pending?)
  }

  predicate Disjoint(a: Batch, b: Batch) {
    forall id :: id in Held(a) ==> id !in Held(b)
  }

  /** The in-app table holds exactly the note of a sent in-app row, and nothing for any other row. */
  predicate Noted(id: nat, row: OutboxRow, notes: seq<Note>) {
    if row.channel.InApp? && row.status.Sent? then
      && row.sentAt.Some? && NoteKind(row.template).Some? && |notes| == 1
      && notes[0] == Note(id, row.recipient, NoteKind(row.template).value, row.payload, notes[0].sentAt)
    else notes == []
  }

  function One(b: bool): nat {
    if b then 1 else 0
  }

  predicate SentByTelegram(rows: map<nat, OutboxRow>, id: nat) {
    id in rows && rows[id].channel.Telegram? && rows[id].status.Sent?
  }

  /** Accepted posts of live batches. */
  ghost predicate InFlight(s: State, id: nat) {
    exists b :: b in s.batches && PostsIn(s.batches[b].finished)[id] > 0
  }

  /** Posts are neither made up nor forgotten: committed, in flight, taken for a failure, or rolled back. */
  ghost predicate PostsAddUp(s: State, id: nat) {
    s.posts[id] == s.lost[id] + s.missed[id] + One(SentByTelegram(s.rows, id)) + One(InFlight(s, id))
  }

  /** Row, history and in-app notes of one outbox entry tell the same story. */
  predicate Consistent(id: nat, row: OutboxRow, h: seq<Verdict>, notes: seq<Note>) {
    && Lived(h)
    && row.status == StatusAfter(h)
    && row.attempts == Failures(h)
    && Noted(id, row, notes)
  }

  predicate Recorded(
    rows: map<nat, OutboxRow>, nextRow: nat, journal: seq<(nat, Verdict)>, notes: seq<Note>, id: nat)
  {
    if id in rows then
      id < nextRow && Consistent(id, rows[id], HistoryOf(journal, id), NotesFor(notes, id))
    else HistoryOf(journal, id) == [] && NotesFor(notes, id) == []
  }

  ghost predicate RowOk(s: State, id: nat) {
    PostsAddUp(s, id) && Recorded(s.rows, s.nextRow, s.journal, s.notes, id)
  }

  ghost predicate Inv(s: State) {
    && (forall b :: b in s.batches ==> b < s.nextBatch && Fresh(s.rows, s.batches[b]) && Distinct(Held(s.batches[b])))
    && (forall a, b :: a in s.batches && b in s.batches && a != b ==> Disjoint(s.batches[a], s.batches[b]))
    && (forall id: nat :: RowOk(s, id))
  }
}
