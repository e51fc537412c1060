/**
 The worker's loop as the code runs it: one transaction, row after row, each row updated in place
 (notification/worker.py, notification/outbox.py). OutboxProtocol interleaves such transactions.
 */
module OutboxWorker {
  import opened Wrappers
  import opened Outbox
  import opened OutboxProtocol

  /** The attempts a batch makes when delivery of row k ends as outcomes[k] and the clock reads times[k]. */
  function Attempts(rows: map<nat, OutboxRow>, ids: seq<nat>, outcomes: seq<Outcome>, times: seq<(int, int)>, n: nat)
    : (done: seq<Attempt>)
    requires n <= |ids| == |outcomes| == |times|
    requires forall k :: 0 <= k < |ids| ==> ids[k] in rows
    ensures |done| == n
    ensures forall k :: 0 <= k < n ==> done[k] == Attempt(ids[k], rows[ids[k]], outcomes[k], times[k].0, times[k].1)
  {
    if n == 0 then []
    else
      Attempts(rows, ids, outcomes, times, n - 1)
      + [Attempt(ids[n - 1], rows[ids[n - 1]], outcomes[n - 1], times[n - 1].0, times[n - 1].1)]
  }

  lemma NoAttempts(rows: map<nat, OutboxRow>, ids: seq<nat>, outcomes: seq<Outcome>, times: seq<(int, int)>)
    requires |ids| == |outcomes| == |times| && forall k :: 0 <= k < |ids| ==> ids[k] in rows
    ensures
      var none := Attempts(rows, ids, outcomes, times, 0);
      RowsAfter(rows, none) == rows && NotesAfter(none) == [] && PostsIn(none) == multiset{}
  {
  }

  lemma OneMoreAttempt(rows: map<nat, OutboxRow>, ids: seq<nat>, outcomes: seq<Outcome>, times: seq<(int, int)>, k: nat)
    requires k < |ids| == |outcomes| == |times| && forall k :: 0 <= k < |ids| ==> ids[k] in rows
    ensures
      var before := Attempts(rows, ids, outcomes, times, k);
      var after := Attempts(rows, ids, outcomes, times, k + 1);
      var a := Attempt(ids[k], rows[ids[k]], outcomes[k], times[k].0, times[k].1);
      && RowsAfter(rows, after) == RowsAfter(rows, before)[a.id := After(a)]
      && NotesAfter(after) == NotesAfter(before) + NotesOf(a)
      && PostsIn(after) == PostsIn(before) + if Posted(a) then multiset{a.id} else multiset{}
  {
    var after := Attempts(rows, ids, outcomes, times, k + 1);
    assert after[..k] == Attempts(rows, ids, outcomes, times, k);
  }

  class Transaction {
    var rows: map<nat, OutboxRow>
    var notes: seq<Note>
    var posts: multiset<nat>
    var nextRow: nat

    constructor (rows: map<nat, OutboxRow>, notes: seq<Note>, nextRow: nat)
      requires forall id :: id in rows ==> id < nextRow
      ensures this.rows == rows && this.notes == notes && posts == multiset{} && this.nextRow == nextRow
    {
      this.rows, this.notes, posts, this.nextRow := rows, notes, multiset{}, nextRow;
    }

    /** The committed state with no batch open, as the protocol sees it. */
    ghost function AsState(now: int): State
      reads this
    {
      State(rows, notes, [], [], map[], posts, multiset{}, multiset{}, now, nextRow, 0)
    }

    /**
     The protocol's enqueue: a row that has lived through nothing yet, under a key never used before,
     due from the given time on, or at once.
     */
    method Enqueue(recipient: int, channel: Channel, template: Template, payload: string, at: Option<int>, now: int)
      returns (id: nat)
      requires nextRow !in rows
      modifies `rows, `nextRow
      ensures AsState(now) == Next(old(AsState(now)), Event.Enqueue(recipient, channel, template, payload, at))
      ensures id !in old(rows) && rows.Keys == old(rows).Keys + {id} && Consistent(id, rows[id], [], [])
      ensures forall t: int :: Due(AsState(t), id) <==> t >= if at.Some? then at.value else now
      ensures forall k :: k in old(rows) ==> rows[k] == old(rows)[k]
    {
      id := nextRow;
      var due := now;
      if at.Some? {
        due := at.value;
      }
      rows := rows[id := OutboxRow(recipient, channel, template, payload, Pending, 0, due, None)];
      nextRow := nextRow + 1;
    }

    method MarkSent(id: nat, now: int)
      requires id in rows
      modifies `rows
      ensures rows == old(rows)[id := Stamp(old(rows)[id], WasSent, now)]
    {
      rows := rows[id := rows[id].(status := Sent, sentAt := Some(now))];
    }

    /** Schedules the retry, or kills the row on the failure that exhausts the budget. */
    method MarkFailedRow(id: nat, row: OutboxRow, now: int)
      requires id in rows && rows[id] == row
      modifies `rows
      ensures rows == old(rows)[id := Stamp(row, MarkFailed(row), now)]
      ensures row.attempts >= 4 ==> rows[id] == row.(status := Dead, attempts := row.attempts + 1)
      ensures row.attempts < 4 ==>
        rows[id] == row.(attempts := row.attempts + 1, scheduledAt := rows[id].scheduledAt)
        && rows[id].scheduledAt - now == [60, 300, 1800, 7200][row.attempts]
    {
      var newAttempts := row.attempts + 1;
      if newAttempts >= MAX_ATTEMPTS {
        rows := rows[id := row.(status := Dead, attempts := newAttempts)];
        return;
      }
      var index := if row.attempts <= |BACKOFF| - 1 then row.attempts else |BACKOFF| - 1;
      rows := rows[id := row.(attempts := newAttempts, scheduledAt := now + BACKOFF[index])];
    }

    method ProcessRow(id: nat, row: OutboxRow, outcome: Outcome, now: int, noted: int)
      requires id in rows && rows[id] == row
      modifies `rows, `notes, `posts
      ensures
        var a := Attempt(id, row, outcome, now, noted);
        && rows == old(rows)[id := After(a)]
        && notes == old(notes) + NotesOf(a)
        && posts == old(posts) + if Posted(a) then multiset{id} else multiset{}
    {
      match row.channel {
        case Telegram =>
          match outcome {
            case Delivered =>
              posts := posts + multiset{id};
              MarkSent(id, now);
            case HttpError(code, retryAfter, accepted) =>
              if accepted {
                posts := posts + multiset{id};
              }
              if code == 429 {
                var delay := DEFAULT_RETRY_AFTER;
                if retryAfter.Some? {
                  delay := retryAfter.value;
                }
                rows := rows[id := row.(attempts := row.attempts + 1, scheduledAt := now + delay)];
              } else if 400 <= code < 500 {
                rows := rows[id := row.(status := Dead, attempts := row.attempts + 1)];
              } else {
                MarkFailedRow(id, row, now);
              }
            case SendFailed(accepted) =>
              if accepted {
                posts := posts + multiset{id};
              }
              MarkFailedRow(id, row, now);
          }
        case InApp =>
          var kind := NoteKind(row.template);
          if kind.None? {
            MarkFailedRow(id, row, now);
            return;
          }
          notes := notes + [Note(id, row.recipient, kind.value, row.payload, noted)];
          MarkSent(id, now);
        case OtherChannel(_) => MarkFailedRow(id, row, now);
      }
    }

    /** The whole batch: exactly the effects the protocol's commit applies, in the same order. */
    method DrainCycle(ids: seq<nat>, outcomes: seq<Outcome>, times: seq<(int, int)>)
      requires |ids| == |outcomes| == |times|
      requires forall k :: 0 <= k < |ids| ==> ids[k] in rows
      requires Distinct(ids)
      modifies `rows, `notes, `posts
      ensures
        var done := Attempts(old(rows), ids, outcomes, times, |ids|);
        && rows == RowsAfter(old(rows), done)
        && notes == old(notes) + NotesAfter(done)
        && posts == old(posts) + PostsIn(done)
    {
      hide Attempts, RowsAfter, NotesAfter, PostsIn, After, NotesOf, Posted;
      ghost var rows0, notes0, posts0 := rows, notes, posts;
      NoAttempts(rows, ids, outcomes, times);
      var k := 0;
      while k < |ids|
        invariant 0 <= k <= |ids|
        invariant rows == RowsAfter(rows0, Attempts(rows0, ids, outcomes, times, k))
        invariant rows.Keys == rows0.Keys
        invariant forall l :: k <= l < |ids| ==> ids[l] in rows && rows[ids[l]] == rows0[ids[l]]
        invariant notes == notes0 + NotesAfter(Attempts(rows0, ids, outcomes, times, k))
        invariant posts == posts0 + PostsIn(Attempts(rows0, ids, outcomes, times, k))
      {
        OneMoreAttempt(rows0, ids, outcomes, times, k);
        ProcessRow(ids[k], rows[ids[k]], outcomes[k], times[k].0, times[k].1);
        k := k + 1;
      }
    }
  }
}
