/**
 Creating one receipt per submission: the structural check, and the idempotency key under racing
 callers (receipt/service.py, migration 0005's unique index on (seller, key)).
 */
module ReceiptPackages {
  import opened Wrappers

  const MAX_ATTACHMENTS := 5

  datatype StructureError = NoAttachment | TooMany | RepeatedPosition | Gap

  predicate Repeats(positions: seq<int>) {
    exists k, l :: 0 <= k < l < |positions| && positions[k] == positions[l]
  }

  predicate Covers(positions: seq<int>) {
    forall p :: 0 <= p < |positions| ==> p in positions
  }

  /** _validate_structure over the attachment positions; the four answers exclude one another. */
  method ValidateStructure(positions: seq<int>) returns (error: Option<StructureError>)
    ensures error.None? <==> 1 <= |positions| <= MAX_ATTACHMENTS && !Repeats(positions) && Covers(positions)
    ensures error == Some(NoAttachment) <==> positions == []
    ensures error == Some(TooMany) <==> |positions| > 5
    ensures error == Some(RepeatedPosition) <==> |positions| <= MAX_ATTACHMENTS && Repeats(positions)
  {
    var n := |positions|;
    if n < 1 {
      return Some(NoAttachment);
    }
    if n > MAX_ATTACHMENTS {
      return Some(TooMany);
    }
    for k := 0 to n
      invariant forall i, j :: 0 <= i < j < k ==> positions[i] != positions[j]
    {
      if positions[k] in positions[..k] {
        return Some(RepeatedPosition);
      }
    }
    for p := 0 to n
      invariant forall q :: 0 <= q < p ==> q in positions
    {
      if p !in positions {
        return Some(Gap);
      }
    }
    return None;
  }

  /** In increasing order the position p sits at index p or later. */
  lemma {:induction false} IndexOf(sorted: seq<int>, p: nat) returns (j: nat)
    requires p < |sorted| && Covers(sorted)
    requires forall k, l :: 0 <= k < l < |sorted| ==> sorted[k] < sorted[l]
    ensures j < |sorted| && sorted[j] == p
    ensures j >= p + if sorted[0] < 0 then 1 else 0
  {
    assert p in sorted;
    j :| 0 <= j < |sorted| && sorted[j] == p;
    if p > 0 {
      var before := IndexOf(sorted, p - 1);
    }
  }

  /** Attachments accepted and sorted by position are numbered by their index; the primary one is 0. */
  lemma SortedPositionsAreIndices(sorted: seq<int>, k: nat)
    requires k < |sorted| && Covers(sorted)
    requires forall i, j :: 0 <= i < j < |sorted| ==> sorted[i] < sorted[j]
    ensures sorted[k] == k
  {
    var last := IndexOf(sorted, |sorted| - 1);
    var j := IndexOf(sorted, k);
    AtLeastIndex(sorted, k);
  }

  lemma {:induction false} AtLeastIndex(sorted: seq<int>, k: nat)
    requires k < |sorted| && sorted[0] >= 0
    requires forall i, j :: 0 <= i < j < |sorted| ==> sorted[i] < sorted[j]
    ensures sorted[k] >= k
  {
    if k > 0 {
      AtLeastIndex(sorted, k - 1);
    }
  }

  // ---------------------------------------------------------------- racing callers

  /** A committed receipt row; `maker` is the caller whose transaction inserted it. */
  datatype Receipt = Receipt(seller: int, key: Option<string>, deleted: bool, maker: nat)

  datatype Reply = Returned(id: nat, created: bool) | Raised

  datatype Phase =
    | Start
    | LookedUp                // inside the transaction, nothing found
    | Inserted(id: nat)       // row flushed, index entry taken, not yet committed
    | Conflicted              // IntegrityError: rolled back, about to look again
    | Done(reply: Reply)

  datatype Caller = Caller(seller: int, key: Option<string>, phase: Phase)

  datatype State = State(receipts: map<nat, Receipt>, callers: map<nat, Caller>, nextId: nat, nextCaller: nat)

  datatype Event = Call(seller: int, key: Option<string>) | Step(caller: nat) | Crash(caller: nat) | SoftDelete(id: nat)

  /** The lookup of _find_by_idempotency_key: committed, same seller and key, not deleted. */
  predicate Found(receipts: map<nat, Receipt>, seller: int, key: Option<string>, id: nat) {
    id in receipts && !receipts[id].deleted && receipts[id].seller == seller && receipts[id].key == key
  }

  function FindIn(receipts: map<nat, Receipt>, seller: int, key: Option<string>, bound: nat): (r: Option<nat>)
    ensures r.Some? ==> r.value < bound && Found(receipts, seller, key, r.value)
    ensures r.None? ==> forall id :: 0 <= id < bound ==> !Found(receipts, seller, key, id)
  {
    if bound == 0 then None
    else if Found(receipts, seller, key, bound - 1) then Some(bound - 1)
    else FindIn(receipts, seller, key, bound - 1)
  }

  function Find(s: State, c: Caller): Option<nat> {
    FindIn(s.receipts, c.seller, c.key, s.nextId)
  }

  /** The unique index covers deleted rows too, and every non-NULL key, the empty string included. */
  predicate IndexTaken(receipts: map<nat, Receipt>, c: Caller) {
    c.key.Some? && exists id :: id in receipts && receipts[id].seller == c.seller && receipts[id].key == c.key
  }

  /** Another transaction has flushed the same index entry and not finished: the INSERT waits for it. */
  predicate MustWait(s: State, i: nat) {
    && i in s.callers && s.callers[i].key.Some?
    && exists j :: j in s.callers && j != i && s.callers[j].phase.Inserted?
                   && s.callers[j].seller == s.callers[i].seller && s.callers[j].key == s.callers[i].key
  }

  function With(s: State, i: nat, p: Phase): State
    requires i in s.callers
  {
    s.(callers := s.callers[i := s.callers[i].(phase := p)])
  }

  function Advance(s: State, i: nat): (s': State)
    requires i in s.callers
    ensures i in s'.callers
  {
    var c := s.callers[i];
    match c.phase
    case Start =>
      if Truthy(c.key) && Find(s, c).Some? then With(s, i, Done(Returned(Find(s, c).value, false)))
      else With(s, i, LookedUp)
    case LookedUp =>
      if MustWait(s, i) then s
      else if IndexTaken(s.receipts, c) then With(s, i, Conflicted)
      else With(s, i, Inserted(s.nextId)).(nextId := s.nextId + 1)
    case Inserted(id) =>
      With(s, i, Done(Returned(id, true))).(receipts := s.receipts[id := Receipt(c.seller, c.key, false, i)])
    case Conflicted =>
      if Truthy(c.key) && Find(s, c).Some? then With(s, i, Done(Returned(Find(s, c).value, false)))
      else With(s, i, Done(Raised))
    case Done(_) => s
  }

  function Next(s: State, e: Event): State {
    match e
    case Call(seller, key) =>
      s.(callers := s.callers[s.nextCaller := Caller(seller, key, Start)], nextCaller := s.nextCaller + 1)
    case Step(i) => if i in s.callers then Advance(s, i) else s
    case Crash(i) => if i in s.callers && !s.callers[i].phase.Done? then s.(callers := s.callers - {i}) else s
    case SoftDelete(id) =>
      if id in s.receipts then s.(receipts := s.receipts[id := s.receipts[id].(deleted := true)]) else s
  }

  function Exec(s: State, es: seq<Event>): State
    decreases |es|
  {
    if es == [] then s else Exec(Next(s, es[0]), es[1..])
  }

  const EMPTY: State := State(map[], map[], 0, 0)

  predicate SameSubmission(aSeller: int, aKey: Option<string>, bSeller: int, bKey: Option<string>) {
    aKey.Some? && aSeller == bSeller && aKey == bKey
  }

  predicate CallerOk(s: State, i: nat)
    requires i in s.callers
  {
    var c := s.callers[i];
    match c.phase
    case Inserted(id) =>
      id < s.nextId && id !in s.receipts && !IndexTaken(s.receipts, c)
    case Conflicted => IndexTaken(s.receipts, c)
    case Done(Returned(id, created)) =>
      && id in s.receipts && s.receipts[id].seller == c.seller && s.receipts[id].key == c.key
      && (created <==> s.receipts[id].maker == i)
    case Done(Raised) => IndexTaken(s.receipts, c)
    case _ => true
  }

  /** No two receipts, two pending inserts, or receipt and pending insert share a submission. */
  ghost predicate Inv(s: State) {
    && (forall id :: id in s.receipts ==> id < s.nextId && s.receipts[id].maker < s.nextCaller)
    && (forall i :: i in s.callers ==> i < s.nextCaller && CallerOk(s, i))
    && (forall i, id :: i in s.callers && id in s.receipts && s.receipts[id].maker == i ==>
          s.callers[i].phase == Done(Returned(id, true)))
    && (forall a, b :: a in s.receipts && b in s.receipts && a != b ==>
          !SameSubmission(s.receipts[a].seller, s.receipts[a].key, s.receipts[b].seller, s.receipts[b].key))
    && (forall i, j :: i in s.callers && j in s.callers && i != j
                       && s.callers[i].phase.Inserted? && s.callers[j].phase.Inserted? ==>
          && s.callers[i].phase.id != s.callers[j].phase.id
          && !SameSubmission(s.callers[i].seller, s.callers[i].key, s.callers[j].seller, s.callers[j].key))
  }

  /** A step that only moves caller i, to a phase that is neither an insert nor a new receipt. */
  lemma MoveKeepsInv(s: State, i: nat, p: Phase)
    requires Inv(s) && i in s.callers && !s.callers[i].phase.Done? && !p.Inserted?
    requires forall id :: id in s.receipts ==> s.receipts[id].maker != i
    requires CallerOk(With(s, i, p), i)
    ensures Inv(With(s, i, p))
  {
    forall j | j in s.callers && j != i ensures CallerOk(With(s, i, p), j) {
      assert CallerOk(s, j);
    }
  }

  lemma InsertKeepsInv(s: State, i: nat)
    requires Inv(s) && i in s.callers && s.callers[i].phase.LookedUp?
    requires !MustWait(s, i) && !IndexTaken(s.receipts, s.callers[i])
    ensures Inv(Advance(s, i))
  {
    var s' := Advance(s, i);
    forall j | j in s'.callers ensures CallerOk(s', j) {
      assert CallerOk(s, j);
    }
  }

  lemma CommitKeepsCaller(s: State, i: nat, j: nat)
    requires Inv(s) && i in s.callers && s.callers[i].phase.Inserted? && j in s.callers
    ensures CallerOk(Advance(s, i), j)
  {
    var s' := Advance(s, i);
    assert CallerOk(s, i) && CallerOk(s, j);
    if j != i && IndexTaken(s.receipts, s.callers[j]) {
      var id :| id in s.receipts
                && s.receipts[id].seller == s.callers[j].seller && s.receipts[id].key == s.callers[j].key;
      assert id in s'.receipts && s'.receipts[id] == s.receipts[id];
    }
  }

  lemma CommitKeepsInv(s: State, i: nat)
    requires Inv(s) && i in s.callers && s.callers[i].phase.Inserted?
    ensures Inv(Advance(s, i))
  {
    assert CallerOk(s, i);
    forall j | j in s.callers ensures CallerOk(Advance(s, i), j) {
      CommitKeepsCaller(s, i, j);
    }
  }

  lemma StepKeepsInv(s: State, i: nat)
    requires Inv(s) && i in s.callers
    ensures Inv(Advance(s, i))
  {
    assert CallerOk(s, i);
    var c := s.callers[i];
    match c.phase
    case Inserted(_) => CommitKeepsInv(s, i);
    case Done(_) =>
    case LookedUp =>
      if !MustWait(s, i) {
        if IndexTaken(s.receipts, c) {
          MoveKeepsInv(s, i, Conflicted);
        } else {
          InsertKeepsInv(s, i);
        }
      }
    case _ =>
      if Truthy(c.key) && Find(s, c).Some? {
        MoveKeepsInv(s, i, Done(Returned(Find(s, c).value, false)));
      } else {
        MoveKeepsInv(s, i, if c.phase.Start? then LookedUp else Done(Raised));
      }
  }

  lemma DeleteKeepsInv(s: State, id: nat)
    requires Inv(s) && id in s.receipts
    ensures Inv(Next(s, SoftDelete(id)))
  {
    var s' := Next(s, SoftDelete(id));
    forall i | i in s'.callers ensures CallerOk(s', i) {
      assert CallerOk(s, i);
      assert IndexTaken(s'.receipts, s.callers[i]) <==> IndexTaken(s.receipts, s.callers[i]) by {
        if IndexTaken(s.receipts, s.callers[i]) {
          var k :| k in s.receipts
                   && s.receipts[k].seller == s.callers[i].seller && s.receipts[k].key == s.callers[i].key;
          assert k in s'.receipts && s'.receipts[k].seller == s.receipts[k].seller;
        }
      }
    }
  }

  lemma EventKeepsInv(s: State, e: Event)
    requires Inv(s)
    ensures Inv(Next(s, e))
  {
    hide Inv, Advance;
    match e
    case Step(i) => if i in s.callers { StepKeepsInv(s, i); }
    case SoftDelete(id) => if id in s.receipts { DeleteKeepsInv(s, id); }
    case Call(_, _) => CallKeepsInv(s, e);
    case Crash(j) => CrashKeepsInv(s, e);
  }

  lemma CallKeepsInv(s: State, e: Event)
    requires Inv(s) && e.Call?
    ensures Inv(Next(s, e))
  {
    hide IndexTaken;
    forall i | i in s.callers ensures CallerOk(Next(s, e), i) {
      assert CallerOk(s, i);
    }
  }

  lemma CrashKeepsInv(s: State, e: Event)
    requires Inv(s) && e.Crash?
    ensures Inv(Next(s, e))
  {
    hide IndexTaken;
    forall i | i in Next(s, e).callers ensures CallerOk(Next(s, e), i) {
      assert CallerOk(s, i);
    }
  }

  lemma {:induction false} RunsKeepInv(s: State, es: seq<Event>)
    requires Inv(s)
    ensures Inv(Exec(s, es))
    decreases |es|
  {
    if es != [] {
      EventKeepsInv(s, es[0]);
      RunsKeepInv(Next(s, es[0]), es[1..]);
    }
  }

  /** Over every run, soft deletes and crashes included: one submission, one row. */
  lemma OneRowPerSubmission(es: seq<Event>, a: nat, b: nat)
    requires a in Exec(EMPTY, es).receipts && b in Exec(EMPTY, es).receipts
    requires
      var r := Exec(EMPTY, es).receipts;
      SameSubmission(r[a].seller, r[a].key, r[b].seller, r[b].key)
    ensures a == b
  {
    RunsKeepInv(EMPTY, es);
  }

  /** Callers of one submission all get the same row, and at most one of them is told it made it. */
  lemma SameRowOneCreator(es: seq<Event>, i: nat, j: nat)
    requires i in Exec(EMPTY, es).callers && j in Exec(EMPTY, es).callers
    requires
      var c := Exec(EMPTY, es).callers;
      && SameSubmission(c[i].seller, c[i].key, c[j].seller, c[j].key)
      && c[i].phase.Done? && c[i].phase.reply.Returned? && c[j].phase.Done? && c[j].phase.reply.Returned?
    ensures
      var c := Exec(EMPTY, es).callers;
      && c[i].phase.reply.id == c[j].phase.reply.id
      && (c[i].phase.reply.created && c[j].phase.reply.created ==> i == j)
  {
    RunsKeepInv(EMPTY, es);
    var s := Exec(EMPTY, es);
    assert CallerOk(s, i) && CallerOk(s, j);
    OneRowPerSubmission(es, s.callers[i].phase.reply.id, s.callers[j].phase.reply.id);
  }

  /**
   When the second lookup runs, the caller fails exactly if the key is the empty string or the row
   that won the race has been soft-deleted meanwhile: the index still blocks the key, and the lookup
   no longer sees it.
   */
  lemma RaisesIff(s: State, i: nat)
    requires Inv(s) && i in s.callers && s.callers[i].phase.Conflicted?
    ensures
      var c := s.callers[i];
      Advance(s, i).callers[i].phase == Done(Raised)
      <==> c.key == Some("")
           || exists id :: id in s.receipts && s.receipts[id].deleted
                           && SameSubmission(s.receipts[id].seller, s.receipts[id].key, c.seller, c.key)
  {
    var c := s.callers[i];
    assert CallerOk(s, i);
    var id :| id in s.receipts && s.receipts[id].seller == c.seller && s.receipts[id].key == c.key;
    if !s.receipts[id].deleted {
      assert Found(s.receipts, c.seller, c.key, id);
    }
  }

  lemma {:induction false} ExecConcat(s: State, a: seq<Event>, b: seq<Event>)
    ensures Exec(s, a + b) == Exec(Exec(s, a), b)
    decreases |a|
  {
    hide Next;
    if a == [] {
      assert a + b == b;
    } else {
      assert (a + b)[1..] == a[1..] + b;
      ExecConcat(Next(s, a[0]), a[1..], b);
    }
  }

  function Thrice(s: State, i: nat): State
    requires i in s.callers
  {
    Advance(Advance(Advance(s, i), i), i)
  }

  /** A caller that arrives and takes its next steps with nobody in between. */
  function Visit(i: nat, seller: int, key: Option<string>): seq<Event> {
    [Call(seller, key), Step(i), Step(i), Step(i)]
  }

  lemma VisitRun(s: State, seller: int, key: Option<string>)
    ensures
      var i := s.nextCaller;
      var s' := Next(s, Call(seller, key));
      i in s'.callers && Exec(s, Visit(i, seller, key)) == Thrice(s', i)
  {
    hide Advance, Exec, Next, Thrice;
    CallArrives(s, seller, key);
    var i := s.nextCaller;
    var call, steps := [Call(seller, key)], [Step(i), Step(i), Step(i)];
    var s' := Next(s, call[0]);
    ExecOne(s, call[0]);
    ThreeSteps(s', i);
    ExecConcat(s, call, steps);
    assert Visit(i, seller, key) == call + steps;
  }

  lemma CallArrives(s: State, seller: int, key: Option<string>)
    ensures s.nextCaller in Next(s, Call(seller, key)).callers
  {
  }

  lemma ThreeSteps(s: State, i: nat)
    requires i in s.callers
    ensures Exec(s, [Step(i), Step(i), Step(i)]) == Thrice(s, i)
  {
    hide Advance, Exec;
    ExecOne(s, Step(i));
    ExecOne(Advance(s, i), Step(i));
    ExecOne(Advance(Advance(s, i), i), Step(i));
    ExecConcat(s, [Step(i)], [Step(i)]);
    ExecConcat(s, [Step(i)] + [Step(i)], [Step(i)]);
    assert [Step(i)] + [Step(i)] + [Step(i)] == [Step(i), Step(i), Step(i)];
  }

  lemma ExecOne(s: State, e: Event)
    ensures Exec(s, [e]) == Next(s, e) && Exec(s, []) == s
  {
    assert [e][1..] == [];
  }

  /**
   Both failures are real: a key whose receipt has been soft-deleted, and the empty key, make the second
   submission raise even without a race.
   */
  lemma SecondSubmissionRaises(seller: int, key: string, deleted: bool) returns (es: seq<Event>)
    requires deleted || key == ""
    ensures 1 in Exec(EMPTY, es).callers && Exec(EMPTY, es).callers[1].phase == Done(Raised)
    ensures Exec(EMPTY, es).callers[1].key == Some(key)
  {
    hide Exec, Next, Advance;
    var first, second := Visit(0, seller, Some(key)), Visit(1, seller, Some(key));
    var removal: seq<Event> := if deleted then [SoftDelete(0)] else [];
    FirstVisit(seller, key);
    var s1 := Exec(EMPTY, first);
    var s2 := Exec(s1, removal);
    ExecOne(s1, SoftDelete(0));
    DeletedReceipt(s1, seller, key);
    LaterVisit(s2, seller, key);
    es := first + removal + second;
    ExecConcat(EMPTY, first, removal);
    ExecConcat(EMPTY, first + removal, second);
  }

  lemma FirstVisit(seller: int, key: string)
    ensures
      var s := Exec(EMPTY, Visit(0, seller, Some(key)));
      s.receipts == map[0 := Receipt(seller, Some(key), false, 0)] && s.nextCaller == 1 && s.nextId == 1
      && s.callers.Keys == {0} && s.callers[0].phase.Done?
  {
    VisitRun(EMPTY, seller, Some(key));
  }

  lemma DeletedReceipt(s: State, seller: int, key: string)
    requires s.receipts == map[0 := Receipt(seller, Some(key), false, 0)]
    ensures Next(s, SoftDelete(0)) == s.(receipts := map[0 := Receipt(seller, Some(key), true, 0)])
  {
  }

  lemma LaterVisit(s: State, seller: int, key: string)
    requires s.nextCaller == 1 && s.nextId == 1 && s.callers.Keys == {0} && s.callers[0].phase.Done?
    requires s.receipts.Keys == {0} && s.receipts[0].seller == seller && s.receipts[0].key == Some(key)
    requires s.receipts[0].deleted || key == ""
    ensures
      var s' := Exec(s, Visit(1, seller, Some(key)));
      1 in s'.callers && s'.callers[1].phase == Done(Raised) && s'.callers[1].key == Some(key)
  {
    VisitRun(s, seller, Some(key));
    assert Found(s.receipts, seller, Some(key), 0) <==> !s.receipts[0].deleted;
  }

  predicate NoDeletes(es: seq<Event>) {
    forall e :: e in es ==> !e.SoftDelete?
  }

  predicate Tame(s: State) {
    && (forall id :: id in s.receipts ==> !s.receipts[id].deleted)
    && (forall i :: i in s.callers && s.callers[i].key != Some("") ==> s.callers[i].phase != Done(Raised))
  }

  lemma TameStep(s: State, i: nat)
    requires Inv(s) && Tame(s) && i in s.callers
    ensures Tame(Advance(s, i))
  {
    if s.callers[i].phase.Conflicted? {
      RaisesIff(s, i);
    }
  }

  lemma {:induction false} TameRuns(s: State, es: seq<Event>)
    requires Inv(s) && Tame(s) && NoDeletes(es)
    ensures Tame(Exec(s, es))
    decreases |es|
  {
    if es != [] {
      EventKeepsInv(s, es[0]);
      if es[0].Step? && es[0].caller in s.callers {
        TameStep(s, es[0].caller);
      }
      assert es[0] in es;
      TameRuns(Next(s, es[0]), es[1..]);
    }
  }

  /** With no soft deletes and a non-empty key nobody ever sees the constraint error. */
  lemma NobodyRaises(es: seq<Event>, i: nat)
    requires NoDeletes(es) && i in Exec(EMPTY, es).callers && Exec(EMPTY, es).callers[i].key != Some("")
    ensures Exec(EMPTY, es).callers[i].phase != Done(Raised)
  {
    TameRuns(EMPTY, es);
  }

  // ---------------------------------------------------------------- one caller, uncontended

  datatype PackageError = Invalid(cause: StructureError) | KeyBlocked

  /** Three steps take a lone caller to its reply. */
  function Alone(receipts: map<nat, Receipt>, nextId: nat, caller: nat, seller: int, key: Option<string>): (end: State)
    ensures caller in end.callers && end.callers[caller].phase.Done?
  {
    var s0 := State(receipts, map[caller := Caller(seller, key, Start)], nextId, caller + 1);
    Thrice(s0, caller)
  }

  class ReceiptStore {
    var receipts: map<nat, Receipt>
    var nextId: nat

    constructor ()
      ensures receipts == map[] && nextId == 0
    {
      receipts, nextId := map[], 0;
    }

    /** create_receipt_package without rivals: an invalid package changes nothing, a known key neither. */
    method CreateReceiptPackage(caller: nat, seller: int, positions: seq<int>, key: Option<string>)
      returns (r: Result<(nat, bool), PackageError>)
      requires forall id :: id in receipts ==> id < nextId
      modifies this
      ensures r.Failure? ==> receipts == old(receipts)
      ensures r.Failure? && r.error.Invalid? <==>
        !(1 <= |positions| <= MAX_ATTACHMENTS && !Repeats(positions) && Covers(positions))
      ensures !(r.Failure? && r.error.Invalid?) ==>
        var end := Alone(old(receipts), old(nextId), caller, seller, key);
        && receipts == end.receipts && nextId == end.nextId
        && end.callers[caller].phase.reply == if r.Success? then Returned(r.value.0, r.value.1) else Raised
      ensures r.Success? && r.value.1 ==>
        && r.value.0 !in old(receipts) && receipts == old(receipts)[r.value.0 := Receipt(seller, key, false, caller)]
        && (key.Some? ==> forall id :: id in old(receipts) ==>
              old(receipts)[id].seller != seller || old(receipts)[id].key != key)
      ensures r == Failure(KeyBlocked) ==>
        key.Some? && exists id :: id in receipts && receipts[id].seller == seller && receipts[id].key == key
      ensures r.Success? && !r.value.1 ==>
        && receipts == old(receipts) && r.value.0 in receipts && key.Some? && key.value != ""
        && receipts[r.value.0].seller == seller && receipts[r.value.0].key == key && !receipts[r.value.0].deleted
    {
      var invalid := ValidateStructure(positions);
      if invalid.Some? {
        return Failure(Invalid(invalid.value));
      }
      var c := Caller(seller, key, Start);
      if Truthy(key) {
        var existing := FindIn(receipts, seller, key, nextId);
        if existing.Some? {
          return Success((existing.value, false));
        }
      }
      if IndexTaken(receipts, c) {
        return Failure(KeyBlocked);
      }
      var id := nextId;
      receipts := receipts[id := Receipt(seller, key, false, caller)];
      nextId := nextId + 1;
      return Success((id, true));
    }
  }
}
