/** The waits that retries really cause: what the committed attempts wrote into the rows, over every run. */
module OutboxDelays {
  import opened Wrappers
  import opened Outbox
  import opened OutboxProtocol
  import opened OutboxSafety

  /** The last committed attempt on a row. */
  function LastOn(log: seq<Attempt>, id: nat): Option<Attempt> {
    if log == [] then None
    else if log[|log| - 1].id == id then Some(log[|log| - 1])
    else LastOn(log[..|log| - 1], id)
  }

  /** The table holds what the last attempt on the row left there. */
  predicate Followed(rows: map<nat, OutboxRow>, log: seq<Attempt>, id: nat) {
    LastOn(log, id).Some? ==> id in rows && rows[id] == After(LastOn(log, id).value)
  }

  /** Every attempt starts from the row that the attempt before it left. */
  predicate Chained(log: seq<Attempt>) {
    forall k :: 0 <= k < |log| && LastOn(log[..k], log[k].id).Some? ==>
      log[k].row == After(LastOn(log[..k], log[k].id).value)
  }

  ghost predicate Traced(s: State) {
    && s.journal == JournalAfter(s.log)
    && (forall id: nat :: Followed(s.rows, s.log, id))
    && Chained(s.log)
  }

  lemma {:induction false} JournalConcat(a: seq<Attempt>, b: seq<Attempt>)
    ensures JournalAfter(a + b) == JournalAfter(a) + JournalAfter(b)
  {
    if b == [] {
      assert a + b == a;
    } else {
      JournalConcat(a, b[..|b| - 1]);
      assert (a + b)[..|a + b| - 1] == a + b[..|b| - 1];
    }
  }

  lemma {:induction false} LastOnConcat(a: seq<Attempt>, b: seq<Attempt>, id: nat)
    ensures LastOn(a + b, id) == if LastOn(b, id).Some? then LastOn(b, id) else LastOn(a, id)
  {
    if b == [] {
      assert a + b == a;
    } else if b[|b| - 1].id != id {
      LastOnConcat(a, b[..|b| - 1], id);
      assert (a + b)[..|a + b| - 1] == a + b[..|b| - 1];
    }
  }

  lemma {:induction false} LastOnNone(done: seq<Attempt>, id: nat)
    requires forall k :: 0 <= k < |done| ==> done[k].id != id
    ensures LastOn(done, id).None?
  {
    if done != [] {
      LastOnNone(done[..|done| - 1], id);
    }
  }

  lemma {:induction false} LastOnOnly(done: seq<Attempt>, k: nat)
    requires k < |done| && forall i, j :: 0 <= i < j < |done| ==> done[i].id != done[j].id
    ensures LastOn(done, done[k].id) == Some(done[k])
  {
    if k < |done| - 1 {
      LastOnOnly(done[..|done| - 1], k);
    }
  }

  lemma CommitFollows(rows: map<nat, OutboxRow>, log: seq<Attempt>, done: seq<Attempt>, id: nat)
    requires Followed(rows, log, id)
    requires forall i, j :: 0 <= i < j < |done| ==> done[i].id != done[j].id
    ensures Followed(RowsAfter(rows, done), log + done, id)
  {
    hide LastOn, RowsAfter;
    LastOnConcat(log, done, id);
    if k :| 0 <= k < |done| && done[k].id == id {
      LastOnOnly(done, k);
      AtRow(rows, done, k);
    } else {
      LastOnNone(done, id);
      Elsewhere(rows, done, id);
    }
  }

  lemma CommitChains(rows: map<nat, OutboxRow>, log: seq<Attempt>, done: seq<Attempt>)
    requires Chained(log) && forall id: nat :: Followed(rows, log, id)
    requires forall i, j :: 0 <= i < j < |done| ==> done[i].id != done[j].id
    requires forall k :: 0 <= k < |done| ==> done[k].id in rows && rows[done[k].id] == done[k].row
    ensures Chained(log + done)
  {
    hide LastOn, After;
    var all := log + done;
    forall k | 0 <= k < |all| && LastOn(all[..k], all[k].id).Some?
      ensures all[k].row == After(LastOn(all[..k], all[k].id).value)
    {
      if k < |log| {
        assert all[..k] == log[..k];
      } else {
        var n := k - |log|;
        assert all[..k] == log + done[..n] && all[k] == done[n];
        LastOnConcat(log, done[..n], done[n].id);
        LastOnNone(done[..n], done[n].id);
        assert Followed(rows, log, done[n].id);
      }
    }
  }

  lemma StepKeepsTraced(s: State, e: Event)
    requires Inv(s) && Traced(s)
    ensures Traced(Next(s, e))
  {
    hide RowOk, LastOn, RowsAfter, JournalAfter, NotesAfter, PostsIn, MissedIn, Chained;
    var s' := Next(s, e);
    if e.Commit? && e.batch in s.batches && s.batches[e.batch].todo == [] {
      var done := s.batches[e.batch].finished;
      HeldAt(s.batches[e.batch]);
      assert Fresh(s.rows, s.batches[e.batch]);
      JournalConcat(s.log, done);
      forall id: nat ensures Followed(s'.rows, s'.log, id) {
        CommitFollows(s.rows, s.log, done, id);
      }
      CommitChains(s.rows, s.log, done);
    } else if e.Enqueue? {
      EnqueueKeepsRow(s, e, s.nextRow);
      forall id: nat ensures Followed(s'.rows, s'.log, id) {
        assert Followed(s.rows, s.log, id);
      }
    }
  }

  lemma {:induction false} RunsKeepTraced(s: State, es: seq<Event>)
    requires Inv(s) && Traced(s)
    ensures Traced(Exec(s, es))
    decreases |es|
  {
    hide Inv, Next, Traced;
    if es != [] {
      StepKeepsTraced(s, es[0]);
      EventKeepsInv(s, es[0]);
      RunsKeepTraced(Next(s, es[0]), es[1..]);
    }
  }

  /** The time between a failed attempt and the moment its row is due again, over the retries of one row. */
  function Waits(log: seq<Attempt>, id: nat): int {
    if log == [] then 0
    else
      var last := log[|log| - 1];
      Waits(log[..|log| - 1], id)
      + if last.id == id && VerdictOf(last).Retry? then After(last).scheduledAt - last.at else 0
  }

  lemma {:induction false} WaitsAreBackoff(log: seq<Attempt>, id: nat)
    ensures Waits(log, id) == BackoffTime(HistoryOf(JournalAfter(log), id))
  {
    hide HistoryOf, BackoffTime, VerdictOf, After;
    if log == [] {
      HistoryOfNone(id);
      NoBackoff();
    } else {
      var front, last := log[..|log| - 1], log[|log| - 1];
      WaitsAreBackoff(front, id);
      HistoryAppend(JournalAfter(front), (last.id, VerdictOf(last)), id);
      var before := HistoryOf(JournalAfter(front), id);
      BackoffAppend(before, VerdictOf(last));
      RetryWait(last);
      assert before + [] == before;
    }
  }

  lemma NoBackoff()
    ensures BackoffTime([]) == 0
  {
  }

  lemma BackoffAppend(h: seq<Verdict>, v: Verdict)
    ensures BackoffTime(h + [v])
         == BackoffTime(h) + if v.Retry? && v.backoffIndex < |BACKOFF| then BACKOFF[v.backoffIndex] else 0
  {
    assert (h + [v])[..|h|] == h;
  }

  lemma RetryWait(a: Attempt)
    ensures VerdictOf(a).Retry? ==>
      VerdictOf(a).backoffIndex < |BACKOFF| && After(a).scheduledAt - a.at == BACKOFF[VerdictOf(a).backoffIndex]
  {
  }

  lemma EmptyIsTraced()
    ensures Inv(EMPTY) && Traced(EMPTY)
  {
    EmptyIsGood();
  }

  /**
   Over every run: a row in the table is what its last attempt left, each attempt started from what the one
   before it left, and the waits that its retries wrote into it add up to at most 156 minutes.
   */
  lemma DelaysAreReal(es: seq<Event>, id: nat)
    requires id in Exec(EMPTY, es).rows
    ensures
      var s := Exec(EMPTY, es);
      && Followed(s.rows, s.log, id) && Chained(s.log)
      && Waits(s.log, id) == BackoffTime(HistoryOf(s.journal, id)) <= 9360
  {
    hide Exec, Inv, Waits, HistoryOf, JournalAfter, BackoffTime, Chained, Followed;
    EmptyIsTraced();
    RunsKeepTraced(EMPTY, es);
    WaitsAreBackoff(Exec(EMPTY, es).log, id);
    RetryBudgetInRuns(es, id);
  }

  /** After a non-final ordinary failure at time t the row is due exactly from t plus its delay on. */
  lemma DueAgain(s: State, a: Attempt)
    requires a.id in s.rows && s.rows[a.id] == After(a)
    requires a.row.status.Pending? && OrdinaryFailure(a.row, a.outcome) && a.row.attempts < 4
    ensures Due(s, a.id) <==> s.now >= a.at + [60, 300, 1800, 7200][a.row.attempts]
  {
    FailureDelays(a);
  }
}
