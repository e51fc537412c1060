/**
 The OFD provider client's attempt loop (ofd_client/proverkacheka.py) and the pipeline's own retry
 loop around it (receipt_pipeline/orchestrator.py). Times are seconds.
 */
module OfdClient {
  import opened Wrappers
  import opened Text

  datatype OfdReceipt = OfdReceipt(
    totalSum: int, shopName: Option<string>, shopInn: Option<string>, items: seq<(string, real)>)

  /** One HTTP POST: a JSON answer with its code, or what went wrong instead. */
  datatype PostOutcome =
    | Answer(code: Option<int>, receipt: OfdReceipt)
    | Status429(retryAfter: real)
    | Status401or403
    | Status404
    | Status5xx
    | TimeoutOrConnectError
    | Escapes                 // any other status, unreadable body, any other exception

  /** How a call to get_receipt ends. */
  datatype Outcome = Found(receipt: OfdReceipt) | NotFound | RateLimited | Blocked | Unexpected

  datatype ClientRun = ClientRun(outcome: Outcome, posts: nat, slept: real)

  datatype Reaction = Ends(outcome: Outcome) | Retries(onLast: Outcome, delay: real)

  function Pow2(k: nat): nat {
    if k == 0 then 1 else 2 * Pow2(k - 1)
  }

  /** 1, 2, 4, ... seconds, capped at 60. */
  function Backoff(attempt: nat): real
    requires attempt >= 1
  {
    if Pow2(attempt - 1) <= 60 then Pow2(attempt - 1) as real else 60.0
  }

  /** What the loop does with the outcome of attempt number `attempt`. */
  function React(p: PostOutcome, attempt: nat): Reaction
    requires attempt >= 1
  {
    match p
    case Answer(code, receipt) =>
      if code == None || code == Some(1) then Ends(Found(receipt))
      else if code == Some(3) then Ends(Blocked)
      else Ends(NotFound)
    case Status404 => Ends(NotFound)
    case Status401or403 => Ends(Blocked)
    case Escapes => Ends(Unexpected)
    case Status429(retryAfter) => Retries(RateLimited, if retryAfter > 0.0 then retryAfter else Backoff(attempt))
    case Status5xx => Retries(Blocked, Backoff(attempt))
    case TimeoutOrConnectError => Retries(Blocked, Backoff(attempt))
  }

  /** The run from attempt number `attempt` on, when at most `last` attempts are allowed. */
  function RunFrom(posts: nat -> PostOutcome, attempt: nat, last: nat): (r: ClientRun)
    requires 1 <= attempt <= last
    ensures 1 <= r.posts <= last - attempt + 1
    decreases last - attempt
  {
    match React(posts(attempt), attempt)
    case Ends(outcome) => ClientRun(outcome, 1, 0.0)
    case Retries(onLast, delay) =>
      if attempt == last then ClientRun(onLast, 1, 0.0)
      else
        var rest := RunFrom(posts, attempt + 1, last);
        ClientRun(rest.outcome, rest.posts + 1, rest.slept + delay)
  }

  function AtLeastOne(n: int): nat {
    if n < 1 then 1 else n
  }

  /** get_receipt; the raise after the loop is never reached, which the last line records. */
  method GetReceipt(maxAttempts: int, posts: nat -> PostOutcome) returns (outcome: Outcome, count: nat, slept: real)
    ensures ClientRun(outcome, count, slept) == RunFrom(posts, 1, AtLeastOne(maxAttempts))
    ensures 1 <= count <= AtLeastOne(maxAttempts) == if maxAttempts < 1 then 1 else maxAttempts
  {
    var last := if maxAttempts < 1 then 1 else maxAttempts;
    var attempt := 1;
    count, slept := 0, 0.0;
    ghost var whole := RunFrom(posts, 1, last);
    while attempt <= last
      invariant 1 <= attempt <= last
      invariant count == attempt - 1
      invariant whole == ClientRun(RunFrom(posts, attempt, last).outcome, RunFrom(posts, attempt, last).posts + count,
                                   RunFrom(posts, attempt, last).slept + slept)
      decreases last - attempt
    {
      count := count + 1;
      match posts(attempt) {
        case Answer(code, receipt) =>
          if code == Some(3) {
            return Blocked, count, slept;
          }
          if code.Some? && code != Some(1) {
            return NotFound, count, slept;
          }
          return Found(receipt), count, slept;
        case Status404 => return NotFound, count, slept;
        case Status401or403 => return Blocked, count, slept;
        case Escapes => return Unexpected, count, slept;
        case Status429(retryAfter) =>
          if attempt == last {
            return RateLimited, count, slept;
          }
          var delay := Backoff(attempt);
          if retryAfter > 0.0 {
            delay := retryAfter;
          }
          slept := slept + delay;
        case _ =>
          if attempt == last {
            return Blocked, count, slept;
          }
          slept := slept + Backoff(attempt);
      }
      attempt := attempt + 1;
    }
    assert false;
  }

  /** The loop stops at the first post that settles the matter, and uses up all attempts otherwise. */
  lemma {:induction false} StopsAtFirstAnswer(posts: nat -> PostOutcome, attempt: nat, last: nat)
    requires 1 <= attempt <= last
    ensures
      var r := RunFrom(posts, attempt, last);
      var final := attempt + r.posts - 1;
      && (forall k :: attempt <= k < final ==> React(posts(k), k).Retries?)
      && (React(posts(final), final).Retries? ==> final == last)
      && r.outcome == (match React(posts(final), final) case Ends(o) => o case Retries(o, _) => o)
    decreases last - attempt
  {
    if React(posts(attempt), attempt).Retries? && attempt < last {
      StopsAtFirstAnswer(posts, attempt + 1, last);
    }
  }

  /** Nothing but a 429, a server error or a lost connection is tried again. */
  predicate Retryable(p: PostOutcome) {
    p.Status429? || p.Status5xx? || p.TimeoutOrConnectError?
  }

  /** How a call ends, told by its last post. */
  lemma LastPostDecides(posts: nat -> PostOutcome, attempt: nat, last: nat)
    requires 1 <= attempt <= last
    ensures
      var r := RunFrom(posts, attempt, last);
      var final := posts(attempt + r.posts - 1);
      && (forall k :: attempt <= k < attempt + r.posts - 1 ==> Retryable(posts(k)))
      && (Retryable(final) ==> attempt + r.posts - 1 == last)
      && (r.outcome.Found? <==> final.Answer? && (final.code == None || final.code == Some(1)))
      && (r.outcome.Found? ==> r.outcome.receipt == final.receipt)
      && (r.outcome == NotFound <==>
            final == Status404 || (final.Answer? && final.code.Some? && final.code.value != 1 && final.code.value != 3))
      && (r.outcome == RateLimited <==> final.Status429?)
      && (r.outcome == Blocked <==>
            || final == Status401or403 || final == Status5xx || final == TimeoutOrConnectError
            || (final.Answer? && final.code == Some(3)))
      && (r.outcome == Unexpected <==> final == Escapes)
  {
    hide RunFrom;
    StopsAtFirstAnswer(posts, attempt, last);
  }

  /** Between two posts: what a 429 asks for if it asks for something, else the doubling delay. */
  lemma WaitBetweenPosts(posts: nat -> PostOutcome, attempt: nat, last: nat)
    requires 1 <= attempt < last && Retryable(posts(attempt))
    ensures RunFrom(posts, attempt, last).slept - RunFrom(posts, attempt + 1, last).slept
         == if posts(attempt).Status429? && posts(attempt).retryAfter > 0.0 then posts(attempt).retryAfter
            else Backoff(attempt)
  {
  }

  /** Delays double from one second and never exceed sixty. */
  lemma {:induction false} BackoffDoubles(attempt: nat)
    requires attempt >= 1
    ensures 1.0 <= Backoff(attempt) <= 60.0
    ensures attempt <= 6 ==> Backoff(attempt + 1) == if attempt < 6 then 2.0 * Backoff(attempt) else 60.0
    ensures attempt > 6 ==> Backoff(attempt) == 60.0
  {
    assert Pow2(0) == 1 && Pow2(1) == 2 && Pow2(2) == 4 && Pow2(3) == 8;
    assert Pow2(4) == 16 && Pow2(5) == 32 && Pow2(6) == 64;
    if attempt > 6 {
      PowMonotone(6, attempt - 1);
    }
  }

  lemma {:induction false} PowMonotone(j: nat, k: nat)
    requires j <= k
    ensures Pow2(j) <= Pow2(k)
  {
    if j < k {
      PowMonotone(j, k - 1);
    }
  }

  /** Between posts a call sleeps at most a minute, unless the provider itself asks for longer. */
  lemma {:induction false} SleepIsBounded(posts: nat -> PostOutcome, attempt: nat, last: nat)
    requires 1 <= attempt <= last
    requires forall k :: attempt <= k <= last && posts(k).Status429? ==> posts(k).retryAfter <= 60.0
    ensures 0.0 <= RunFrom(posts, attempt, last).slept <= 60.0 * (RunFrom(posts, attempt, last).posts - 1) as real
    decreases last - attempt
  {
    BackoffDoubles(attempt);
    if React(posts(attempt), attempt).Retries? && attempt < last {
      SleepIsBounded(posts, attempt + 1, last);
    }
  }

  // ---------------------------------------------------------------- the pipeline's retry loop

  const RETRY_BACKOFF: seq<nat> := [1, 2, 4]

  /** _get_retry_config: attempts from the environment, 3 if unreadable, one delay per gap up to three. */
  function RetryConfig(setting: Option<string>): (config: (int, seq<nat>))
    ensures config.1 == Delays(config.0)
    ensures config.0 >= 2 ==> config.1 != [] && |config.1| <= config.0 - 1
  {
    var parsed := if setting.Some? then PyInt(setting.value) else Some(3);
    var n := if parsed.Some? then parsed.value else 3;
    (n, Delays(n))
  }

  function Delays(n: int): (d: seq<nat>)
    ensures |d| == if n <= 1 then 0 else if n <= 4 then n - 1 else 3
    ensures forall k :: 0 <= k < |d| ==> d[k] == RETRY_BACKOFF[k]
  {
    var gaps := if n - 1 < 0 then 0 else n - 1;
    RETRY_BACKOFF[..if gaps < 3 then gaps else 3]
  }

  /** The delay after failed call k (from 0): 1, 2, 4, 4, 4, ... */
  function Delay(k: nat): nat {
    if k < 3 then RETRY_BACKOFF[k] else 4
  }

  function SleepTotal(k: nat): nat {
    if k == 0 then 0 else SleepTotal(k - 1) + Delay(k - 1)
  }

  predicate Settles(o: Outcome) {
    o.Found? || o.NotFound?
  }

  datatype FetchError = NotFoundInOfd | UpstreamUnavailable

  datatype FetchRun = FetchRun(result: Result<OfdReceipt, FetchError>, calls: nat, slept: nat)

  /** The first call among the n allowed that settles the matter, or n. */
  function FirstSettled(outcomes: nat -> Outcome, n: nat): (k: nat)
    ensures k <= n
    ensures forall j :: 0 <= j < k ==> !Settles(outcomes(j))
    ensures k < n ==> Settles(outcomes(k))
  {
    if n == 0 then 0
    else
      var k := FirstSettled(outcomes, n - 1);
      if k < n - 1 || Settles(outcomes(n - 1)) then k else n
  }

  function NonNegative(n: int): nat {
    if n < 0 then 0 else n
  }

  /** What fetching with n attempts comes to. */
  function Fetch(outcomes: nat -> Outcome, n: int): FetchRun {
    var k := FirstSettled(outcomes, NonNegative(n));
    if k < NonNegative(n) then
      FetchRun(
        if outcomes(k).Found? then Success(outcomes(k).receipt) else Failure(NotFoundInOfd), k + 1, SleepTotal(k))
    else FetchRun(Failure(UpstreamUnavailable), NonNegative(n), if n >= 1 then SleepTotal(n - 1) else 0)
  }

  lemma SleepStep(k: nat)
    ensures SleepTotal(k) == if k == 0 then 0 else SleepTotal(k - 1) + Delay(k - 1)
  {
  }

  /** The delay list, read with its last entry repeated. */
  lemma DelayAt(n: int, attempt: nat)
    requires 1 <= attempt < n
    ensures Delays(n) != []
    ensures Delay(attempt - 1)
         == if attempt - 1 < |Delays(n)| then Delays(n)[attempt - 1] else Delays(n)[|Delays(n)| - 1]
  {
  }

  /** The loop of _step_ofd_fetch: every index into the delays is in range, for every setting. */
  method FetchWithRetry(setting: Option<string>, outcomes: nat -> Outcome)
    returns (result: Result<OfdReceipt, FetchError>, calls: nat, slept: nat)
    ensures FetchRun(result, calls, slept) == Fetch(outcomes, RetryConfig(setting).0)
  {
    hide RetryConfig, FirstSettled, SleepTotal;
    var (n, delays) := RetryConfig(setting);
    SleepStep(0);
    calls, slept := 0, 0;
    var attempt := 1;
    while attempt <= n
      invariant calls == attempt - 1 && (if n >= 1 then attempt <= n else attempt == 1)
      invariant forall j :: 0 <= j < calls ==> !Settles(outcomes(j))
      invariant slept == SleepTotal(calls)
      decreases n - attempt
    {
      var outcome := outcomes(calls);
      calls := calls + 1;
      match outcome {
        case Found(receipt) => return Success(receipt), calls, slept;
        case NotFound => return Failure(NotFoundInOfd), calls, slept;
        case _ =>
          if attempt < n {
            var delay := if attempt - 1 < |delays| then delays[attempt - 1] else delays[|delays| - 1];
            DelayAt(n, attempt);
            SleepStep(calls);
            slept := slept + delay;
          } else {
            return Failure(UpstreamUnavailable), calls, slept;
          }
      }
      attempt := attempt + 1;
    }
    return Failure(UpstreamUnavailable), calls, slept;
  }

  lemma {:induction false} SleepClosedForm(k: nat)
    ensures SleepTotal(k) == if k >= 3 then 4 * k - 5 else if k == 2 then 3 else if k == 1 then 1 else 0
  {
    if k > 0 {
      SleepClosedForm(k - 1);
    }
  }

  lemma {:induction false} SleepMonotone(j: nat, k: nat)
    requires j <= k
    ensures SleepTotal(j) <= SleepTotal(k)
  {
    if j < k {
      SleepMonotone(j, k - 1);
    }
  }

  /** Calls and sleep of one fetch, for every setting and every behaviour of the provider. */
  lemma FetchIsBounded(outcomes: nat -> Outcome, n: int)
    ensures
      var r := Fetch(outcomes, n);
      && r.calls <= NonNegative(n)
      && r.slept <= (if n >= 3 then 4 * n - 9 else if n == 2 then 1 else 0)
      && (r.result.Success? || r.result == Failure(NotFoundInOfd)
          <==> exists k: nat :: k < NonNegative(n) && Settles(outcomes(k)))
      && (forall k :: 0 <= k < r.calls - 1 ==> !Settles(outcomes(k)))
  {
    var k := FirstSettled(outcomes, NonNegative(n));
    if n >= 1 {
      SleepMonotone(if k < n then k else n - 1, n - 1);
      SleepClosedForm(n - 1);
    }
  }

  /** As many attempts as the setting says, and three without a readable one. */
  lemma AttemptsAsSet(setting: Option<string>)
    ensures setting.None? || PyInt(setting.value).None? ==> RetryConfig(setting).0 == 3
    ensures setting.Some? && PyInt(setting.value).Some? ==> Some(RetryConfig(setting).0) == PyInt(setting.value)
  {
  }

  /** The answer of the last call is the answer of the fetch; one, two, then four seconds lie between calls. */
  lemma FetchIsExact(outcomes: nat -> Outcome, n: int)
    ensures
      var r := Fetch(outcomes, n);
      && (r.result.Success? ==> r.calls > 0 && outcomes(r.calls - 1) == Found(r.result.value))
      && (r.result == Failure(NotFoundInOfd) ==> r.calls > 0 && outcomes(r.calls - 1).NotFound?)
      && (r.result == Failure(UpstreamUnavailable) ==> r.calls == if n < 0 then 0 else n)
      && r.slept == if r.calls >= 4 then 4 * r.calls - 9 else if r.calls == 3 then 3 else if r.calls == 2 then 1 else 0
  {
    var k := FirstSettled(outcomes, NonNegative(n));
    SleepClosedForm(k);
    if n >= 1 {
      SleepClosedForm(n - 1);
    }
  }

  // ---------------------------------------------------------------- both loops together

  /** HTTP posts of the first `calls` client calls, call k answering posts(k, attempt). */
  function PostsSent(posts: (nat, nat) -> PostOutcome, m: int, calls: nat): nat {
    if calls == 0 then 0
    else PostsSent(posts, m, calls - 1) + RunFrom((a: nat) => posts(calls - 1, a), 1, AtLeastOne(m)).posts
  }

  function OutcomesOf(posts: (nat, nat) -> PostOutcome, m: int): nat -> Outcome {
    (k: nat) => RunFrom((a: nat) => posts(k, a), 1, AtLeastOne(m)).outcome
  }

  lemma {:induction false} PostsPerCall(posts: (nat, nat) -> PostOutcome, m: int, calls: nat)
    ensures calls <= PostsSent(posts, m, calls) <= calls * AtLeastOne(m)
  {
    hide RunFrom;
    if calls > 0 {
      PostsPerCall(posts, m, calls - 1);
      OneMore(calls - 1, AtLeastOne(m));
    }
  }

  /** Pipeline and client together send at most n * max(1, m) posts for one receipt. */
  lemma PostsAreBounded(posts: (nat, nat) -> PostOutcome, m: int, n: int)
    ensures PostsSent(posts, m, Fetch(OutcomesOf(posts, m), n).calls) <= NonNegative(n) * AtLeastOne(m)
  {
    var calls := Fetch(OutcomesOf(posts, m), n).calls;
    PostsPerCall(posts, m, calls);
    Times(calls, NonNegative(n), AtLeastOne(m));
  }

  lemma OneMore(a: nat, c: nat)
    ensures (a + 1) * c == a * c + c
  {
  }

  lemma Times(a: nat, b: nat, c: nat)
    requires a <= b
    ensures a * c <= b * c
  {
  }
}
