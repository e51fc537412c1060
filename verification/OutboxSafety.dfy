/** What every interleaving of outbox workers keeps. */
module OutboxSafety {
  import opened Wrappers
  import opened Outbox
  import opened OutboxProtocol

  // ---------------------------------------------------------------- the effect of one batch

  lemma {:induction false} HistoryConcat(a: seq<(nat, Verdict)>, b: seq<(nat, Verdict)>, id: nat)
    ensures HistoryOf(a + b, id) == HistoryOf(a, id) + HistoryOf(b, id)
  {
    hide HistoryOf;
    if b == [] {
      assert a + b == a && b == [];
      assert HistoryOf(b, id) == [] by { HistoryOfNone(id); }
    } else {
      var front, last := b[..|b| - 1], b[|b| - 1];
      HistoryConcat(a, front, id);
      HistoryAppend(front, last, id);
      HistoryAppend(a + front, last, id);
      assert b == front + [last] && a + b == a + front + [last];
    }
  }

  lemma HistoryOfNone(id: nat)
    ensures HistoryOf([], id) == []
  {
  }

  lemma HistoryAppend(a: seq<(nat, Verdict)>, v: (nat, Verdict), id: nat)
    ensures HistoryOf(a + [v], id) == HistoryOf(a, id) + if v.0 == id then [v.1] else []
  {
    assert (a + [v])[..|a|] == a;
  }

  lemma {:induction false} NotesConcat(a: seq<Note>, b: seq<Note>, id: nat)
    ensures NotesFor(a + b, id) == NotesFor(a, id) + NotesFor(b, id)
  {
    hide NotesFor;
    if b == [] {
      assert a + b == a && b == [];
      assert NotesFor(b, id) == [] by { NotesOfNone(id); }
    } else {
      var front, last := b[..|b| - 1], b[|b| - 1];
      NotesConcat(a, front, id);
      NotesAppend(front, last, id);
      NotesAppend(a + front, last, id);
      assert b == front + [last] && a + b == a + front + [last];
    }
  }

  lemma NotesOfNone(id: nat)
    ensures NotesFor([], id) == []
  {
  }

  lemma NotesAppend(a: seq<Note>, n: Note, id: nat)
    ensures NotesFor(a + [n], id) == NotesFor(a, id) + if n.source == id then [n] else []
  {
    assert (a + [n])[..|a|] == a;
  }

  /** What finished attempts leave behind for one row. */
  predicate Leaves(done: seq<Attempt>, id: nat, h: seq<Verdict>, notes: seq<Note>, posts: nat, missed: nat) {
    && HistoryOf(JournalAfter(done), id) == h
    && NotesFor(NotesAfter(done), id) == notes
    && PostsIn(done)[id] == posts
    && MissedIn(done)[id] == missed
  }

  lemma LastElsewhere(done: seq<Attempt>, id: nat, h: seq<Verdict>, notes: seq<Note>, posts: nat, missed: nat)
    requires done != [] && done[|done| - 1].id != id
    requires Leaves(done[..|done| - 1], id, h, notes, posts, missed)
    ensures Leaves(done, id, h, notes, posts, missed)
  {
    var last := done[|done| - 1];
    HistoryConcat(JournalAfter(done[..|done| - 1]), [(last.id, VerdictOf(last))], id);
    NotesConcat(NotesAfter(done[..|done| - 1]), NotesOf(last), id);
    assert NotesFor(NotesOf(last), id) == [];
    assert h + [] == h && notes + [] == notes;
  }

  lemma LastHere(done: seq<Attempt>)
    requires done != [] && Leaves(done[..|done| - 1], done[|done| - 1].id, [], [], 0, 0)
    ensures
      var last := done[|done| - 1];
      Leaves(done, last.id, [VerdictOf(last)], NotesOf(last), One(Posted(last)), One(Missed(last)))
  {
    var last := done[|done| - 1];
    HistoryConcat(JournalAfter(done[..|done| - 1]), [(last.id, VerdictOf(last))], last.id);
    NotesConcat(NotesAfter(done[..|done| - 1]), NotesOf(last), last.id);
    assert NotesFor(NotesOf(last), last.id) == NotesOf(last);
    assert [] + NotesOf(last) == NotesOf(last);
  }

  lemma {:induction false} Elsewhere(rows: map<nat, OutboxRow>, done: seq<Attempt>, id: nat)
    requires forall k :: 0 <= k < |done| ==> done[k].id != id
    ensures id in RowsAfter(rows, done) <==> id in rows
    ensures id in rows ==> RowsAfter(rows, done)[id] == rows[id]
    ensures Leaves(done, id, [], [], 0, 0)
  {
    if done != [] {
      Elsewhere(rows, done[..|done| - 1], id);
      LastElsewhere(done, id, [], [], 0, 0);
    }
  }

  lemma {:induction false} RowAfterAttempt(rows: map<nat, OutboxRow>, done: seq<Attempt>, k: nat)
    requires k < |done|
    requires forall i, j :: 0 <= i < j < |done| ==> done[i].id != done[j].id
    ensures done[k].id in RowsAfter(rows, done) && RowsAfter(rows, done)[done[k].id] == After(done[k])
  {
    if k < |done| - 1 {
      RowAfterAttempt(rows, done[..|done| - 1], k);
    }
  }

  lemma {:induction false} LeavesOfAttempt(done: seq<Attempt>, k: nat)
    requires k < |done|
    requires forall i, j :: 0 <= i < j < |done| ==> done[i].id != done[j].id
    ensures Leaves(done, done[k].id, [VerdictOf(done[k])], NotesOf(done[k]), One(Posted(done[k])), One(Missed(done[k])))
  {
    if k == |done| - 1 {
      Elsewhere(map[], done[..k], done[k].id);
      LastHere(done);
    } else {
      LeavesOfAttempt(done[..|done| - 1], k);
      LastElsewhere(
        done, done[k].id, [VerdictOf(done[k])], NotesOf(done[k]), One(Posted(done[k])), One(Missed(done[k])));
    }
  }

  lemma AtRow(rows: map<nat, OutboxRow>, done: seq<Attempt>, k: nat)
    requires k < |done|
    requires forall i, j :: 0 <= i < j < |done| ==> done[i].id != done[j].id
    ensures done[k].id in RowsAfter(rows, done) && RowsAfter(rows, done)[done[k].id] == After(done[k])
    ensures Leaves(done, done[k].id, [VerdictOf(done[k])], NotesOf(done[k]), One(Posted(done[k])), One(Missed(done[k])))
  {
    RowAfterAttempt(rows, done, k);
    LeavesOfAttempt(done, k);
  }

  // ---------------------------------------------------------------- who holds what

  lemma HeldAt(b: Batch)
    ensures |Held(b)| == |b.finished| + |b.todo|
    ensures forall k :: 0 <= k < |b.finished| ==> Held(b)[k] == b.finished[k].id
    ensures forall k :: 0 <= k < |b.todo| ==> Held(b)[|b.finished| + k] == b.todo[k].0
    ensures forall id: nat :: id in Held(b) <==> InBatch(b, id)
  {
    forall id: nat | id in Held(b) ensures InBatch(b, id) {
      var k :| 0 <= k < |Held(b)| && Held(b)[k] == id;
      if k >= |b.finished| {
        assert b.todo[k - |b.finished|].0 == id;
      }
    }
  }

  /** A batch posts only for rows it has finished, once each. */
  lemma PostsOfBatch(rows: map<nat, OutboxRow>, b: Batch, id: nat)
    requires Distinct(Held(b))
    ensures PostsIn(b.finished)[id] <= 1
    ensures id !in Held(b) ==> PostsIn(b.finished)[id] == 0
    ensures forall k :: 0 <= k < |b.finished| && b.finished[k].id == id ==>
      PostsIn(b.finished)[id] == One(Posted(b.finished[k]))
  {
    HeldAt(b);
    if k :| 0 <= k < |b.finished| && b.finished[k].id == id {
      AtRow(rows, b.finished, k);
    } else {
      Elsewhere(rows, b.finished, id);
    }
  }

  lemma InFlightIn(s: State, b: nat, id: nat)
    requires Inv(s) && b in s.batches && id in Held(s.batches[b])
    ensures InFlight(s, id) <==> PostsIn(s.batches[b].finished)[id] > 0
  {
    if InFlight(s, id) {
      var c :| c in s.batches && PostsIn(s.batches[c].finished)[id] > 0;
      PostsOfBatch(s.rows, s.batches[c], id);
      assert c != b ==> Disjoint(s.batches[c], s.batches[b]);
    }
  }

  /** A batch never holds more than fifty rows. */
  ghost predicate Small(s: State) {
    forall b :: b in s.batches ==> |s.batches[b].todo| + |s.batches[b].finished| <= 50
  }

  lemma {:induction false} BatchesAreSmall(s: State, es: seq<Event>)
    requires Small(s)
    ensures Small(Exec(s, es))
    decreases |es|
  {
    if es != [] {
      SmallStep(s, es[0]);
      BatchesAreSmall(Next(s, es[0]), es[1..]);
    }
  }

  lemma SmallStep(s: State, e: Event)
    requires Small(s)
    ensures Small(Next(s, e))
  {
  }

  /** SKIP LOCKED: no row is ever held by two live batches, nor twice by one. */
  lemma NoRowHeldTwice(s: State, a: nat, b: nat, id: nat)
    requires Inv(s) && a in s.batches && b in s.batches
    requires InBatch(s.batches[a], id) && InBatch(s.batches[b], id)
    ensures a == b && Distinct(Held(s.batches[a]))
  {
    HeldAt(s.batches[a]);
    HeldAt(s.batches[b]);
    assert a != b ==> Disjoint(s.batches[a], s.batches[b]);
  }

  // ---------------------------------------------------------------- commit

  /** Nothing of row id is in flight when every other batch leaves it alone. */
  lemma OnlyHolder(s: State, s': State, b: nat, id: nat)
    requires Inv(s) && b in s.batches && id in Held(s.batches[b])
    requires forall c :: c in s'.batches ==> c in s.batches && c != b && s'.batches[c] == s.batches[c]
    ensures !InFlight(s', id)
  {
    forall c | c in s'.batches ensures PostsIn(s'.batches[c].finished)[id] == 0 {
      assert Disjoint(s.batches[b], s.batches[c]);
      PostsOfBatch(s.rows, s.batches[c], id);
    }
  }

  /** What is in flight for a row that batch b does not hold does not depend on b. */
  lemma NotHolder(s: State, s': State, b: nat, id: nat)
    requires Inv(s) && b in s.batches && id !in Held(s.batches[b])
    requires s'.batches == s.batches - {b}
    ensures InFlight(s', id) <==> InFlight(s, id)
  {
    PostsOfBatch(s.rows, s.batches[b], id);
    if InFlight(s, id) {
      var c :| c in s.batches && PostsIn(s.batches[c].finished)[id] > 0;
      assert c in s'.batches;
    }
  }

  /** The verdict of a finished attempt continues the story of its row. */
  lemma AttemptIsConsistent(a: Attempt, h: seq<Verdict>, notes: seq<Note>)
    requires Consistent(a.id, a.row, h, notes) && a.row.status.Pending?
    ensures Consistent(a.id, After(a), h + [VerdictOf(a)], notes + NotesOf(a))
  {
    LifeGoesOn(h, a);
    assert [] + NotesOf(a) == NotesOf(a);
  }

  /** A Telegram row ends up sent exactly when the worker saw the post accepted. */
  lemma SentIffPosted(rows: map<nat, OutboxRow>, done: seq<Attempt>, k: nat)
    requires k < |done| && done[k].row.status.Pending?
    requires forall i, j :: 0 <= i < j < |done| ==> done[i].id != done[j].id
    ensures SentByTelegram(RowsAfter(rows, done), done[k].id) <==> Posted(done[k]) && !Missed(done[k])
    ensures PostsIn(done)[done[k].id] == One(Posted(done[k])) && MissedIn(done)[done[k].id] == One(Missed(done[k]))
  {
    hide RowsAfter, PostsIn, MissedIn, HistoryOf, NotesFor, JournalAfter, NotesAfter;
    AtRow(rows, done, k);
  }

  lemma CommitFinishedPosts(s: State, b: nat, k: nat)
    requires Inv(s) && b in s.batches && s.batches[b].todo == [] && k < |s.batches[b].finished|
    ensures PostsAddUp(Next(s, Commit(b)), s.batches[b].finished[k].id)
  {
    var done := s.batches[b].finished;
    var id := done[k].id;
    HeldAt(s.batches[b]);
    assert Fresh(s.rows, s.batches[b]) && Held(s.batches[b])[k] == id;
    assert !SentByTelegram(s.rows, id);
    assert PostsAddUp(s, id) by { assert RowOk(s, id); }
    SentIffPosted(s.rows, done, k);
    InFlightIn(s, b, id);
    OnlyHolder(s, Next(s, Commit(b)), b, id);
  }

  lemma FinishedIsRecorded(
    rows: map<nat, OutboxRow>, nextRow: nat, journal: seq<(nat, Verdict)>, notes: seq<Note>, done: seq<Attempt>, k: nat)
    requires k < |done| && Recorded(rows, nextRow, journal, notes, done[k].id)
    requires done[k].id in rows && rows[done[k].id] == done[k].row && done[k].row.status.Pending?
    requires forall i, j :: 0 <= i < j < |done| ==> done[i].id != done[j].id
    ensures Recorded(RowsAfter(rows, done), nextRow, journal + JournalAfter(done), notes + NotesAfter(done), done[k].id)
  {
    var a := done[k];
    AtRow(rows, done, k);
    HistoryConcat(journal, JournalAfter(done), a.id);
    NotesConcat(notes, NotesAfter(done), a.id);
    AttemptIsConsistent(a, HistoryOf(journal, a.id), NotesFor(notes, a.id));
  }

  lemma OtherIsRecorded(
    rows: map<nat, OutboxRow>, nextRow: nat, journal: seq<(nat, Verdict)>, notes: seq<Note>,
    done: seq<Attempt>, id: nat)
    requires Recorded(rows, nextRow, journal, notes, id)
    requires forall k :: 0 <= k < |done| ==> done[k].id != id
    ensures Recorded(RowsAfter(rows, done), nextRow, journal + JournalAfter(done), notes + NotesAfter(done), id)
  {
    Elsewhere(rows, done, id);
    HistoryConcat(journal, JournalAfter(done), id);
    NotesConcat(notes, NotesAfter(done), id);
    assert HistoryOf(journal, id) + [] == HistoryOf(journal, id);
    assert NotesFor(notes, id) + [] == NotesFor(notes, id);
  }

  lemma CommitOtherPosts(s: State, b: nat, id: nat)
    requires Inv(s) && b in s.batches && s.batches[b].todo == [] && id !in Held(s.batches[b])
    ensures PostsAddUp(Next(s, Commit(b)), id)
  {
    hide RowsAfter, PostsIn, MissedIn, JournalAfter, NotesAfter, Recorded, Held, InFlight, Leaves;
    assert RowOk(s, id);
    HeldAt(s.batches[b]);
    forall k | 0 <= k < |s.batches[b].finished| ensures s.batches[b].finished[k].id != id {
      assert InBatch(s.batches[b], s.batches[b].finished[k].id);
    }
    Elsewhere(s.rows, s.batches[b].finished, id);
    NotHolder(s, Next(s, Commit(b)), b, id);
  }

  lemma CommitKeepsRow(s: State, b: nat, id: nat)
    requires Inv(s) && b in s.batches && s.batches[b].todo == []
    ensures RowOk(Next(s, Commit(b)), id)
  {
    hide RowsAfter, PostsIn, MissedIn, JournalAfter, NotesAfter, Recorded, Held, InFlight, PostsAddUp;
    var done := s.batches[b].finished;
    assert RowOk(s, id);
    HeldAt(s.batches[b]);
    assert Fresh(s.rows, s.batches[b]);
    if k :| 0 <= k < |done| && done[k].id == id {
      CommitFinishedPosts(s, b, k);
      FinishedIsRecorded(s.rows, s.nextRow, s.journal, s.notes, done, k);
    } else {
      assert !InBatch(s.batches[b], id);
      CommitOtherPosts(s, b, id);
      OtherIsRecorded(s.rows, s.nextRow, s.journal, s.notes, done, id);
    }
  }

  lemma CommitKeepsInv(s: State, b: nat)
    requires Inv(s) && b in s.batches && s.batches[b].todo == []
    ensures Inv(Next(s, Commit(b)))
  {
    hide RowOk, Held, RowsAfter, JournalAfter, NotesAfter, PostsIn, Leaves, Consistent;
    var s' := Next(s, Commit(b));
    var done := s.batches[b].finished;
    forall id: nat ensures RowOk(s', id) {
      CommitKeepsRow(s, b, id);
    }
    forall c | c in s'.batches ensures Fresh(s'.rows, s'.batches[c]) {
      var other := s.batches[c];
      assert Disjoint(s.batches[b], other);
      HeldAt(s.batches[b]);
      HeldAt(other);
      forall id | id in Held(other) ensures id in s'.rows && s'.rows[id] == s.rows[id] {
        assert InBatch(other, id);
        Elsewhere(s.rows, done, id);
      }
    }
  }

  // ---------------------------------------------------------------- the other events

  lemma ProcessHeadRow(s: State, b: nat, outcome: Outcome, noted: int)
    requires Inv(s) && b in s.batches && s.batches[b].todo != []
    ensures RowOk(Next(s, Process(b, outcome, noted)), s.batches[b].todo[0].0)
  {
    hide PostsIn, Recorded, Held, Leaves, Judge, RowsAfter;
    var s' := Next(s, Process(b, outcome, noted));
    var batch, done := s.batches[b], s'.batches[b].finished;
    var id := batch.todo[0].0;
    assert RowOk(s, id);
    HeadIsUnposted(s, b);
    PostsAppend(batch.finished, done[|done| - 1]);
    forall c | c in s'.batches && c != b ensures PostsIn(s'.batches[c].finished)[id] == 0 {
      assert Disjoint(batch, s.batches[c]);
      PostsOfBatch(s.rows, s.batches[c], id);
    }
    assert InFlight(s', id) <==> PostsIn(done)[id] > 0;
  }

  lemma PostsAppend(done: seq<Attempt>, a: Attempt)
    ensures forall id ::
      PostsIn(done + [a])[id] == PostsIn(done)[id] + if Posted(a) && a.id == id then 1 else 0
  {
    assert (done + [a])[..|done|] == done;
  }

  /** The row a batch comes to next is loaded as it stands, and nothing of it is in flight. */
  lemma HeadIsUnposted(s: State, b: nat)
    requires Inv(s) && b in s.batches && s.batches[b].todo != []
    ensures
      var id := s.batches[b].todo[0].0;
      && id in Held(s.batches[b]) && PostsIn(s.batches[b].finished)[id] == 0 && !InFlight(s, id)
      && id in s.rows && s.rows[id] == s.batches[b].todo[0].1 && s.rows[id].status.Pending?
  {
    hide PostsIn, RowOk, Leaves;
    var batch := s.batches[b];
    HeldAt(batch);
    assert Held(batch)[|batch.finished|] == batch.todo[0].0;
    Elsewhere(map[], batch.finished, batch.todo[0].0);
    InFlightIn(s, b, batch.todo[0].0);
    assert Fresh(s.rows, batch);
  }

  /** A step that touches neither the tables nor the posts of row id keeps what is known about it. */
  lemma SameRow(s: State, s': State, id: nat)
    requires RowOk(s, id)
    requires s'.rows == s.rows && s'.nextRow == s.nextRow && s'.journal == s.journal && s'.notes == s.notes
    requires s'.posts[id] == s.posts[id] && s'.lost[id] == s.lost[id] && s'.missed[id] == s.missed[id]
    requires s.batches.Keys == s'.batches.Keys
    requires forall c :: c in s.batches ==> PostsIn(s.batches[c].finished)[id] == PostsIn(s'.batches[c].finished)[id]
    ensures RowOk(s', id)
  {
    assert InFlight(s', id) <==> InFlight(s, id);
  }

  lemma ProcessOtherRow(s: State, b: nat, outcome: Outcome, noted: int, id: nat)
    requires RowOk(s, id) && b in s.batches && s.batches[b].todo != [] && id != s.batches[b].todo[0].0
    ensures RowOk(Next(s, Process(b, outcome, noted)), id)
  {
    hide PostsIn, RowOk, VerdictOf, Posted;
    var s' := Next(s, Process(b, outcome, noted));
    var done := s'.batches[b].finished;
    PostsAppend(s.batches[b].finished, done[|done| - 1]);
    SameRow(s, s', id);
  }

  lemma FinishingHoldsOn(b: Batch, a: Attempt)
    requires b.todo != [] && b.todo[0].0 == a.id
    ensures Held(Batch(b.todo[1..], b.finished + [a])) == Held(b)
  {
  }

  lemma ProcessKeepsInv(s: State, b: nat, outcome: Outcome, noted: int)
    requires Inv(s) && b in s.batches && s.batches[b].todo != []
    ensures Inv(Next(s, Process(b, outcome, noted)))
  {
    hide RowOk, Held, VerdictOf, Posted;
    var s' := Next(s, Process(b, outcome, noted));
    var batch, batch' := s.batches[b], s'.batches[b];
    FinishingHoldsOn(batch, batch'.finished[|batch.finished|]);
    assert Fresh(s.rows, batch);
    assert Fresh(s'.rows, batch');
    forall id: nat ensures RowOk(s', id) {
      if id == batch.todo[0].0 {
        ProcessHeadRow(s, b, outcome, noted);
      } else {
        assert RowOk(s, id);
        ProcessOtherRow(s, b, outcome, noted, id);
      }
    }
    forall c | c in s'.batches && c != b
      ensures Disjoint(batch', s'.batches[c]) && Disjoint(s'.batches[c], batch')
    {
      assert Disjoint(batch, s.batches[c]) && Disjoint(s.batches[c], batch);
    }
  }

  lemma RollbackKeepsInv(s: State, b: nat)
    requires Inv(s) && b in s.batches
    ensures Inv(Next(s, Rollback(b)))
  {
    var s' := Next(s, Rollback(b));
    forall id: nat ensures RowOk(s', id) {
      assert RowOk(s, id);
      PostsOfBatch(s.rows, s.batches[b], id);
      if id in Held(s.batches[b]) {
        InFlightIn(s, b, id);
        OnlyHolder(s, s', b, id);
      } else {
        NotHolder(s, s', b, id);
      }
    }
  }

  lemma DrainedApart(s: State, ids: seq<nat>, c: nat)
    requires Inv(s) && Drainable(s, ids) && c in s.batches
    ensures Disjoint(Batch(Load(s.rows, ids), []), s.batches[c])
    ensures Disjoint(s.batches[c], Batch(Load(s.rows, ids), []))
  {
    var batch := Batch(Load(s.rows, ids), []);
    HeldAt(batch);
    HeldAt(s.batches[c]);
    forall id | id in Held(batch) ensures id !in Held(s.batches[c]) {
      assert InBatch(batch, id);
      assert id in ids;
      assert !Locked(s, id);
    }
  }

  lemma DrainedIsFresh(s: State, ids: seq<nat>)
    requires Drainable(s, ids)
    ensures Fresh(s.rows, Batch(Load(s.rows, ids), [])) && Distinct(Held(Batch(Load(s.rows, ids), [])))
  {
    hide Held, Locked;
    var batch := Batch(Load(s.rows, ids), []);
    HeldAt(batch);
    assert Held(batch) == ids;
  }

  lemma NoPosts(id: nat)
    ensures PostsIn([])[id] == 0
  {
  }

  lemma DrainKeepsRow(s: State, ids: seq<nat>, id: nat)
    requires Inv(s) && Drainable(s, ids)
    ensures RowOk(Next(s, Drain(ids)), id)
  {
    hide PostsIn, Recorded, Drainable, Fresh, Held;
    var s' := Next(s, Drain(ids));
    assert RowOk(s, id);
    assert PostsIn([])[id] == 0 by { NoPosts(id); }
    if InFlight(s, id) {
      var c :| c in s.batches && PostsIn(s.batches[c].finished)[id] > 0;
      assert s'.batches[c] == s.batches[c];
    }
  }

  lemma DrainKeepsInv(s: State, ids: seq<nat>)
    requires Inv(s) && Drainable(s, ids)
    ensures Inv(Next(s, Drain(ids)))
  {
    hide RowOk, Held, Locked, Fresh, Distinct;
    var batch := Batch(Load(s.rows, ids), []);
    DrainedIsFresh(s, ids);
    forall id: nat ensures RowOk(Next(s, Drain(ids)), id) {
      DrainKeepsRow(s, ids, id);
    }
    forall c | c in s.batches ensures Disjoint(batch, s.batches[c]) && Disjoint(s.batches[c], batch) {
      DrainedApart(s, ids, c);
    }
  }

  lemma EnqueueKeepsRow(s: State, e: Event, id: nat)
    requires Inv(s) && e.Enqueue?
    ensures RowOk(Next(s, e), id) && s.nextRow !in s.rows
  {
    hide PostsIn, Fresh, Held, HistoryOf, NotesFor;
    assert RowOk(s, id) && RowOk(s, s.nextRow);
    assert InFlight(Next(s, e), id) <==> InFlight(s, id);
  }

  lemma EnqueueKeepsInv(s: State, e: Event)
    requires Inv(s) && e.Enqueue?
    ensures Inv(Next(s, e))
  {
    hide RowOk, Held;
    var s' := Next(s, e);
    forall id: nat ensures RowOk(s', id) {
      EnqueueKeepsRow(s, e, id);
    }
    assert s.nextRow !in s.rows by { EnqueueKeepsRow(s, e, s.nextRow); }
    forall b | b in s'.batches ensures Fresh(s'.rows, s'.batches[b]) {
      assert Fresh(s.rows, s.batches[b]);
    }
  }

  lemma EventKeepsInv(s: State, e: Event)
    requires Inv(s)
    ensures Inv(Next(s, e))
  {
    match e
    case Enqueue(_, _, _, _, _) => EnqueueKeepsInv(s, e);
    case Tick(_) =>
      forall id: nat ensures RowOk(Next(s, e), id) {
        assert RowOk(s, id);
        assert InFlight(Next(s, e), id) <==> InFlight(s, id);
      }
    case Drain(ids) => if Drainable(s, ids) { DrainKeepsInv(s, ids); }
    case Process(b, outcome, noted) =>
      if b in s.batches && s.batches[b].todo != [] { ProcessKeepsInv(s, b, outcome, noted); }
    case Commit(b) => if b in s.batches && s.batches[b].todo == [] { CommitKeepsInv(s, b); }
    case Rollback(b) => if b in s.batches { RollbackKeepsInv(s, b); }
  }

  lemma {:induction false} RunsKeepInv(s: State, es: seq<Event>)
    requires Inv(s)
    ensures Inv(Exec(s, es))
    decreases |es|
  {
    if es != [] {
      EventKeepsInv(s, es[0]);
      RunsKeepInv(Next(s, es[0]), es[1..]);
    }
  }

  // ---------------------------------------------------------------- headline results

  /**
   Over every run: the messages Telegram accepted for a row are its committed send, plus the ones in
   flight, plus those whose batch rolled back, plus those the worker took for failures. So a sent row
   was delivered at least once, and exactly once if and only if nothing was lost or missed.
   */
  lemma TelegramDelivery(es: seq<Event>, id: nat)
    ensures
      var s := Exec(EMPTY, es);
      && s.posts[id] == s.lost[id] + s.missed[id] + One(SentByTelegram(s.rows, id)) + One(InFlight(s, id))
      && (SentByTelegram(s.rows, id) ==>
            && s.posts[id] == s.lost[id] + s.missed[id] + 1
            && (s.posts[id] == 1 <==> s.lost[id] == 0 && s.missed[id] == 0))
  {
    hide PostsIn, Recorded, Exec, InFlight;
    assert Inv(EMPTY) by { EmptyIsGood(); }
    RunsKeepInv(EMPTY, es);
    var s := Exec(EMPTY, es);
    assert RowOk(s, id);
    if InFlight(s, id) {
      InFlightIsPending(s, id);
    }
  }

  lemma EmptyIsGood()
    ensures Inv(EMPTY)
  {
  }

  lemma InFlightIsPending(s: State, id: nat)
    requires Inv(s) && InFlight(s, id)
    ensures id in s.rows && s.rows[id].status.Pending?
  {
    hide PostsIn, RowOk, Held;
    var b :| b in s.batches && PostsIn(s.batches[b].finished)[id] > 0;
    PostsOfBatch(s.rows, s.batches[b], id);
    HeldAt(s.batches[b]);
    assert Fresh(s.rows, s.batches[b]);
  }

  /** The worker is never wrong about this outcome. */
  predicate Truthful(outcome: Outcome) {
    Accepted(outcome) ==> outcome.Delivered?
  }

  predicate AllTruthful(done: seq<Attempt>) {
    forall k :: 0 <= k < |done| ==> Truthful(done[k].outcome)
  }

  lemma {:induction false} TruthfulMissesNothing(done: seq<Attempt>)
    requires AllTruthful(done)
    ensures MissedIn(done) == multiset{}
  {
    if done != [] {
      TruthfulMissesNothing(done[..|done| - 1]);
    }
  }

  /** No rollback, and no failure reported for an accepted message. */
  predicate Smooth(e: Event) {
    !e.Rollback? && (e.Process? ==> Truthful(e.outcome))
  }

  lemma SmoothStep(s: State, e: Event)
    requires s.lost == multiset{} && s.missed == multiset{} && Smooth(e)
    requires forall b :: b in s.batches ==> AllTruthful(s.batches[b].finished)
    ensures Next(s, e).lost == multiset{} && Next(s, e).missed == multiset{}
    ensures forall b :: b in Next(s, e).batches ==> AllTruthful(Next(s, e).batches[b].finished)
  {
    if e.Commit? && e.batch in s.batches {
      TruthfulMissesNothing(s.batches[e.batch].finished);
    }
  }

  lemma {:induction false} SmoothRuns(s: State, es: seq<Event>)
    requires s.lost == multiset{} && s.missed == multiset{} && forall e :: e in es ==> Smooth(e)
    requires forall b :: b in s.batches ==> AllTruthful(s.batches[b].finished)
    ensures Exec(s, es).lost == multiset{} && Exec(s, es).missed == multiset{}
    decreases |es|
  {
    hide Next, Smooth;
    if es != [] {
      SmoothStep(s, es[0]);
      SmoothRuns(Next(s, es[0]), es[1..]);
    }
  }

  /**
   When no batch rolls back and no accepted message is reported as a failure, a sent row was delivered
   exactly once, and a delivered row is sent or about to be.
   */
  lemma ExactlyOnceWithoutRollback(es: seq<Event>, id: nat)
    requires forall e :: e in es ==> Smooth(e)
    ensures SentByTelegram(Exec(EMPTY, es).rows, id) ==> Exec(EMPTY, es).posts[id] == 1
    ensures Exec(EMPTY, es).posts[id] > 0 ==>
      SentByTelegram(Exec(EMPTY, es).rows, id) || InFlight(Exec(EMPTY, es), id)
  {
    TelegramDelivery(es, id);
    SmoothRuns(EMPTY, es);
  }

  lemma {:induction false} ExecConcat(s: State, a: seq<Event>, b: seq<Event>)
    ensures Exec(s, a + b) == Exec(Exec(s, a), b)
    decreases |a|
  {
    hide Next;
    if a == [] {
      assert a + b == b;
    } else {
      assert (a + b)[1..] == a[1..] + b;
      ExecConcat(Next(s, a[0]), a[1..], b);
    }
  }

  lemma ExecThree(s: State, a: Event, b: Event, c: Event)
    ensures Exec(s, [a, b, c]) == Next(Next(Next(s, a), b), c)
  {
    hide Next;
    var es := [a, b, c];
    assert es[1..] == [b, c] && [b, c][1..] == [c] && [c][1..] == [];
    assert Exec(Next(s, a), [b, c]) == Exec(Next(Next(s, a), b), [c]);
  }

  /** Only row 0 exists, it is due, and no batch is open. */
  predicate OnlyRow(s: State) {
    s.rows.Keys == {0} && s.batches == map[] && Due(s, 0) && s.rows[0].channel.Telegram?
  }

  function AttemptRun(s: State, outcome: Outcome): seq<Event> {
    [Drain([0]), Process(s.nextBatch, outcome, s.now), Commit(s.nextBatch)]
  }

  /** One attempt on the only row, in a batch of its own. */
  lemma OneAttempt(s: State, outcome: Outcome)
    requires OnlyRow(s)
    ensures
      var a := Attempt(0, s.rows[0], outcome, s.now, s.now);
      var s' := Exec(s, AttemptRun(s, outcome));
      && s'.rows == map[0 := After(a)] && s'.batches == map[] && s'.now == s.now
      && s'.posts == if Posted(a) then s.posts + multiset{0} else s.posts
  {
    hide Judge, Stamp, JournalAfter, NotesAfter, MissedIn, PostsIn;
    var a := Attempt(0, s.rows[0], outcome, s.now, s.now);
    var b := s.nextBatch;
    var s1 := Next(s, Drain([0]));
    assert Drainable(s, [0]);
    assert Load(s.rows, [0]) == [(0, s.rows[0])];
    assert s1.batches == map[b := Batch([(0, s.rows[0])], [])];
    var s2 := Next(s1, Process(b, outcome, s.now));
    assert [(0, s.rows[0])][1..] == [] && [] + [a] == [a];
    assert s2.batches == map[b := Batch([], [a])];
    assert [a][..0] == [];
    assert RowsAfter(s.rows, [a]) == map[0 := After(a)];
    ExecThree(s, Drain([0]), Process(b, outcome, s.now), Commit(b));
  }

  /**
   A lost reply is enough to deliver twice: the message is accepted, the worker times out, waits a
   minute and sends it again. No batch is rolled back.
   */
  lemma LostReplySendsTwice() returns (es: seq<Event>)
    ensures forall e :: e in es ==> !e.Rollback?
    ensures SentByTelegram(Exec(EMPTY, es).rows, 0) && Exec(EMPTY, es).posts[0] == 2
  {
    var enqueue, wait := [Enqueue(1, Telegram, ReceiptApproved, "", None)], [Tick(60)];
    var s1 := Exec(EMPTY, enqueue);
    assert enqueue[1..] == [] && wait[1..] == [];
    assert s1 == Next(EMPTY, enqueue[0]);
    OneAttempt(s1, SendFailed(true));
    var first := AttemptRun(s1, SendFailed(true));
    var s2 := Exec(s1, first);
    var s3 := Exec(s2, wait);
    assert s3 == Next(s2, wait[0]);
    OneAttempt(s3, Delivered);
    var second := AttemptRun(s3, Delivered);
    es := enqueue + first + wait + second;
    hide Exec;
    ExecConcat(EMPTY, enqueue, first);
    ExecConcat(EMPTY, enqueue + first, wait);
    ExecConcat(EMPTY, enqueue + first + wait, second);
  }

  /** Over every run, crashes included: an in-app row has its one notification iff it is sent. */
  lemma InAppExactlyOnce(es: seq<Event>, id: nat)
    requires id in Exec(EMPTY, es).rows && Exec(EMPTY, es).rows[id].channel.InApp?
    ensures
      var s := Exec(EMPTY, es);
      && |NotesFor(s.notes, id)| == One(s.rows[id].status.Sent?)
      && Noted(id, s.rows[id], NotesFor(s.notes, id))
  {
    RunsKeepInv(EMPTY, es);
    assert RowOk(Exec(EMPTY, es), id);
  }

  /** Over every run: the counter is the number of recorded failures, and the retry budget holds. */
  lemma RetryBudgetInRuns(es: seq<Event>, id: nat)
    requires id in Exec(EMPTY, es).rows
    ensures
      var s := Exec(EMPTY, es);
      var h := HistoryOf(s.journal, id);
      && s.rows[id].attempts == Failures(h)
      && Retries(h) <= 4
      && |h| <= 5 + RateLimits(h)
      && BackoffTime(h) <= 156 * MINUTE
      && (forall i :: 0 <= i < |h| && h[i].Retry? ==> h[i].backoffIndex <= 3)
  {
    RunsKeepInv(EMPTY, es);
    assert RowOk(Exec(EMPTY, es), id);
    RetryBudget(HistoryOf(Exec(EMPTY, es).journal, id));
  }

  lemma FinalStaysInOneStep(s: State, e: Event, id: nat)
    requires Inv(s) && id in s.rows && !s.rows[id].status.Pending?
    ensures id in Next(s, e).rows && Next(s, e).rows[id] == s.rows[id]
  {
    assert RowOk(s, id);
    if e.Commit? && e.batch in s.batches {
      assert Fresh(s.rows, s.batches[e.batch]);
      Elsewhere(s.rows, s.batches[e.batch].finished, id);
    }
  }

  /** Sent and dead rows never change again. */
  lemma {:induction false} FinalIsForever(s: State, es: seq<Event>, id: nat)
    requires Inv(s) && id in s.rows && !s.rows[id].status.Pending?
    ensures id in Exec(s, es).rows && Exec(s, es).rows[id] == s.rows[id]
    decreases |es|
  {
    if es != [] {
      FinalStaysInOneStep(s, es[0], id);
      EventKeepsInv(s, es[0]);
      FinalIsForever(Next(s, es[0]), es[1..], id);
    }
  }

  /** Over every run no row is in two live batches. */
  lemma NoRowHeldTwiceInRuns(es: seq<Event>, a: nat, b: nat, id: nat)
    requires a in Exec(EMPTY, es).batches && b in Exec(EMPTY, es).batches
    requires InBatch(Exec(EMPTY, es).batches[a], id) && InBatch(Exec(EMPTY, es).batches[b], id)
    ensures a == b && Distinct(Held(Exec(EMPTY, es).batches[a]))
  {
    RunsKeepInv(EMPTY, es);
    NoRowHeldTwice(Exec(EMPTY, es), a, b, id);
  }
}
