/**
 * The retry policy `_get` mounts on its session: urllib3's `Retry(total=retry,
 * backoff_factor=delay, status_forcelist=[429, 500, 502, 503, 504],
 * allowed_methods=['GET'])`, modelled as the attempt sequence it allows for
 * one request, with the sleep schedule the docstrings give.
 */
module Retry {

  /** Statuses that are retried: rate limiting and the common 5xx server errors. */
  const STATUS_FORCELIST: set<int> := {429, 500, 502, 503, 504}

  /** Only GET requests are retried. */
  const ALLOWED_METHODS: set<string> := {"GET"}

  datatype RetryPolicy = RetryPolicy(
    total: nat,
    backoffFactor: nat,
    statusForcelist: set<int>,
    allowedMethods: set<string>)

  /** The policy built from `_get`'s `retry` and `delay` arguments. */
  function RetryStrategy(retry: nat, delay: nat): (p: RetryPolicy)
    ensures p.total == retry && p.backoffFactor == delay
    ensures forall s :: IsRetryable(p, "GET", Response(s)) <==> s in {429, 500, 502, 503, 504}
    ensures forall m, s :: m != "GET" ==> !IsRetryable(p, m, Response(s))
  {
    RetryPolicy(retry, delay, STATUS_FORCELIST, ALLOWED_METHODS)
  }

  /** What one attempt of a request produced. */
  datatype Attempt = Response(status: int) | ConnectTimeout

  /**
   * Whether an attempt calls for another one: a connect timeout does, and so
   * does a forced status on an allowed method.
   */
  predicate IsRetryable(p: RetryPolicy, verb: string, a: Attempt) {
    match a
    case ConnectTimeout => true
    case Response(s) => verb in p.allowedMethods && s in p.statusForcelist
  }

  function Pow2(n: nat): nat {
    if n == 0 then 1 else 2 * Pow2(n - 1)
  }

  /** Seconds slept before retry number k: `delay * (2 ** (k - 1))`. */
  function Backoff(p: RetryPolicy, k: nat): nat
    requires k >= 1
  {
    p.backoffFactor * Pow2(k - 1)
  }

  /** How a request ended: with a final response, or with the retry budget used up. */
  datatype Verdict = Final(status: int) | Exhausted

  /** The verdict, the number of attempts made and the sleeps between them. */
  datatype Trace = Trace(verdict: Verdict, attempts: nat, sleeps: seq<nat>)

  /**
   * The attempts from number k (0-based) on, given what every attempt would
   * produce. Attempt k is the last one when it is not retryable, or when the
   * k retries already made exhaust the budget.
   */
  function AttemptsFrom(p: RetryPolicy, verb: string, results: seq<Attempt>, k: nat): Trace
    requires k <= p.total < |results|
    decreases p.total - k
  {
    var a := results[k];
    if a.Response? && !IsRetryable(p, verb, a) then Trace(Final(a.status), k + 1, [])
    else if k == p.total then Trace(Exhausted, k + 1, [])
    else
      var rest := AttemptsFrom(p, verb, results, k + 1);
      Trace(rest.verdict, rest.attempts, [Backoff(p, k + 1)] + rest.sleeps)
  }

  /** One request under the policy; `results[i]` is what attempt i would produce. */
  function Attempts(p: RetryPolicy, verb: string, results: seq<Attempt>): Trace
    requires p.total < |results|
  {
    AttemptsFrom(p, verb, results, 0)
  }

  lemma {:induction false} AttemptsFromBudget(p: RetryPolicy, verb: string, results: seq<Attempt>, k: nat)
    requires k <= p.total < |results|
    ensures var t := AttemptsFrom(p, verb, results, k);
      && k + 1 <= t.attempts <= p.total + 1
      && |t.sleeps| == t.attempts - k - 1
      && (forall j :: 0 <= j < |t.sleeps| ==> t.sleeps[j] == Backoff(p, k + 1 + j))
    decreases p.total - k
  {
    var a := results[k];
    if !(a.Response? && !IsRetryable(p, verb, a)) && k < p.total {
      AttemptsFromBudget(p, verb, results, k + 1);
      var rest := AttemptsFrom(p, verb, results, k + 1);
      var t := AttemptsFrom(p, verb, results, k);
      forall j | 0 <= j < |t.sleeps|
        ensures t.sleeps[j] == Backoff(p, k + 1 + j)
      {
        if j > 0 {
          assert t.sleeps[j] == rest.sleeps[j - 1];
        }
      }
    }
  }

  /**
   * A request makes between one and `retry + 1` attempts, and sleeps
   * `delay * 2^(k-1)` seconds before its k-th retry.
   */
  lemma AttemptBudget(p: RetryPolicy, verb: string, results: seq<Attempt>)
    requires p.total < |results|
    ensures var t := Attempts(p, verb, results);
      && 1 <= t.attempts <= p.total + 1
      && |t.sleeps| == t.attempts - 1
      && (forall j :: 0 <= j < |t.sleeps| ==> t.sleeps[j] == p.backoffFactor * Pow2(j))
  {
    AttemptsFromBudget(p, verb, results, 0);
  }

  lemma {:induction false} ExhaustedFromIff(p: RetryPolicy, verb: string, results: seq<Attempt>, k: nat)
    requires k <= p.total < |results|
    ensures AttemptsFrom(p, verb, results, k).verdict == Exhausted <==>
      forall j :: k <= j <= p.total ==> IsRetryable(p, verb, results[j])
    decreases p.total - k
  {
    if k < p.total {
      ExhaustedFromIff(p, verb, results, k + 1);
    }
  }

  /** A request gives up exactly when every attempt the budget allows calls for a retry. */
  lemma ExhaustedIff(p: RetryPolicy, verb: string, results: seq<Attempt>)
    requires p.total < |results|
    ensures Attempts(p, verb, results).verdict == Exhausted <==>
      forall j :: 0 <= j <= p.total ==> IsRetryable(p, verb, results[j])
  {
    ExhaustedFromIff(p, verb, results, 0);
  }

  lemma {:induction false} FinalFromIsFirstNonRetryable(p: RetryPolicy, verb: string, results: seq<Attempt>, k: nat)
    requires k <= p.total < |results|
    requires AttemptsFrom(p, verb, results, k).verdict.Final?
    ensures var t := AttemptsFrom(p, verb, results, k);
      && k < t.attempts <= p.total + 1
      && results[t.attempts - 1] == Response(t.verdict.status)
      && !IsRetryable(p, verb, results[t.attempts - 1])
      && (forall j :: k <= j < t.attempts - 1 ==> IsRetryable(p, verb, results[j]))
    decreases p.total - k
  {
    var a := results[k];
    if !(a.Response? && !IsRetryable(p, verb, a)) {
      FinalFromIsFirstNonRetryable(p, verb, results, k + 1);
    }
  }

  /**
   * A final response is the first attempt that does not call for a retry;
   * every attempt before it did.
   */
  lemma FinalIsFirstNonRetryable(p: RetryPolicy, verb: string, results: seq<Attempt>)
    requires p.total < |results|
    requires Attempts(p, verb, results).verdict.Final?
    ensures var t := Attempts(p, verb, results);
      && 1 <= t.attempts <= p.total + 1
      && results[t.attempts - 1] == Response(t.verdict.status)
      && !IsRetryable(p, verb, results[t.attempts - 1])
      && (forall j :: 0 <= j < t.attempts - 1 ==> IsRetryable(p, verb, results[j]))
  {
    FinalFromIsFirstNonRetryable(p, verb, results, 0);
  }

  /** A method other than GET never has a response retried: the first response is final. */
  lemma OnlyGetIsRetried(retry: nat, delay: nat, verb: string, results: seq<Attempt>)
    requires retry < |results|
    requires verb != "GET" && results[0].Response?
    ensures Attempts(RetryStrategy(retry, delay), verb, results) == Trace(Final(results[0].status), 1, [])
  {
  }

  /**
   * A server that keeps answering 503, with the default budget of two
   * retries: three attempts, sleeping `delay` and then `2 * delay` seconds.
   */
  lemma AlwaysUnavailable(delay: nat, results: seq<Attempt>)
    requires |results| == 3 && forall j :: 0 <= j < 3 ==> results[j] == Response(503)
    ensures Attempts(RetryStrategy(2, delay), "GET", results) == Trace(Exhausted, 3, [delay, 2 * delay])
  {
    var p := RetryStrategy(2, delay);
    assert AttemptsFrom(p, "GET", results, 2) == Trace(Exhausted, 3, []);
    assert AttemptsFrom(p, "GET", results, 1) == Trace(Exhausted, 3, [2 * delay]);
  }
}
