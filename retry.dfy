/**
 * The retry governor of src/utils/retry.js: error classification, exponential
 * backoff, the user-facing messages, and the bounded retry loop.
 *
 * The per-attempt timeout race and the backoff sleeps are not executed: an
 * attempt whose timer wins is the outcome `TimedOut`, and every sleep is
 * recorded in the `waits` the loop returns.
 */
module Retry {
  import opened Wrappers
  import opened Text
  import opened Js

  /** The five error types the governor distinguishes. */
  datatype ErrorKind = Connection | Server | Quota | Auth | Other {
    /** The string the source uses for the type. */
    function Name(): string {
      match this
      case Connection => "connection"
      case Server => "server"
      case Quota => "quota"
      case Auth => "auth"
      case Other => "other"
    }

    /** Types after which the loop stops at once. */
    predicate FailFast() {
      Quota? || Auth? || Other?
    }
  }

  const TimeoutMessage: string := "Request timeout"

  /** The error the per-attempt timer rejects with. */
  function TimeoutError(): JsError {
    JsError(TimeoutMessage, None, None)
  }

  /** `error.response.data?.error?.message || ''`, lower-cased. */
  function LowerMessage(r: HttpResponse): string {
    ToLower(ErrorMessageOf(r).GetOr(""))
  }

  predicate MentionsQuota(m: string) {
    Contains(m, "quota") || Contains(m, "rate limit") || Contains(m, "billing")
  }

  predicate MentionsAuth(m: string) {
    Contains(m, "invalid") || Contains(m, "unauthorized") || Contains(m, "authentication")
  }

  predicate MentionsBadRequest(m: string) {
    Contains(m, "invalid") || Contains(m, "malformed") || Contains(m, "bad request")
  }

  // The classification stated kind by kind, independently of the order of
  // the tests in ClassifyError. `Answered(e)` is an error that carries a
  // response and is not the timer's.

  predicate Answered(e: JsError) {
    e.message != TimeoutMessage && e.response.Some?
  }

  predicate HasStatus(e: JsError, s: int) {
    Answered(e) && e.response.value.status == Some(s)
  }

  predicate IsServerStatus(e: JsError) {
    Answered(e) && e.response.value.status.Some? && e.response.value.status.value >= 500
  }

  predicate ConnectionRule(e: JsError) {
    || !Answered(e)
    || (HasStatus(e, 403) && !MentionsQuota(LowerMessage(e.response.value))
                          && !MentionsAuth(LowerMessage(e.response.value)))
    || (HasStatus(e, 400) && !MentionsBadRequest(LowerMessage(e.response.value)))
  }

  predicate QuotaRule(e: JsError) {
    || HasStatus(e, 429)
    || (HasStatus(e, 403) && MentionsQuota(LowerMessage(e.response.value)))
  }

  predicate AuthRule(e: JsError) {
    || HasStatus(e, 401)
    || (HasStatus(e, 403) && !MentionsQuota(LowerMessage(e.response.value))
                          && MentionsAuth(LowerMessage(e.response.value)))
  }

  predicate ServerRule(e: JsError) {
    IsServerStatus(e)
  }

  predicate OtherRule(e: JsError) {
    || (HasStatus(e, 400) && MentionsBadRequest(LowerMessage(e.response.value)))
    || (Answered(e) && !HasStatus(e, 400) && !HasStatus(e, 401) && !HasStatus(e, 403)
                    && !HasStatus(e, 429) && !IsServerStatus(e))
  }

  /**
   * `classifyError`: the timeout marker first, then a missing response, then
   * the status tests in the order 429, 401, 403, 400, 502-504, >= 500.
   */
  function ClassifyError(e: JsError): ErrorKind {
    if e.message == TimeoutMessage then Connection
    else if e.response.None? then Connection
    else
      var status := e.response.value.status;
      var m := LowerMessage(e.response.value);
      if status == Some(429) then Quota
      else if status == Some(401) then Auth
      else if status == Some(403) then
        (if MentionsQuota(m) then Quota else if MentionsAuth(m) then Auth else Connection)
      else if status == Some(400) then
        (if MentionsBadRequest(m) then Other else Connection)
      else if status == Some(502) || status == Some(503) || status == Some(504) then Server
      else if status.Some? && status.value >= 500 then Server
      else Other
  }

  /** Each type is chosen exactly when its rule holds. */
  lemma ClassifyByRule(e: JsError)
    ensures ClassifyError(e) == Connection <==> ConnectionRule(e)
    ensures ClassifyError(e) == Quota <==> QuotaRule(e)
    ensures ClassifyError(e) == Auth <==> AuthRule(e)
    ensures ClassifyError(e) == Server <==> ServerRule(e)
    ensures ClassifyError(e) == Other <==> OtherRule(e)
  {
  }

  /** The timer's error classifies as a connection problem, whatever else it carries. */
  lemma TimeoutIsConnection(e: JsError)
    requires e.message == TimeoutMessage
    ensures ClassifyError(e) == Connection
  {
  }

  /** 2 to the power n. */
  function Pow2(n: nat): (p: nat)
    ensures p >= 1
  {
    if n == 0 then 1 else 2 * Pow2(n - 1)
  }

  const UnexpectedMessage: string := "An unexpected error occurred."
  const QuotaMessage: string := "API quota exceeded. Please upgrade your plan or switch providers."
  const AuthMessage: string := "Invalid API key. Please check your key in settings."
  const OtherMessage: string := "Request failed. Please try again later."
  const ConnectionNotice: string := "Connection problem detected. Retrying..."
  const ServerNotice: string := "Server error detected. Retrying..."
  const ConnectionRetry: string := "Connection issue, trying again..."
  const ServerRetry: string := "Server issue, trying again..."

  /** `getErrorMessage`: the progress text for one failed attempt. */
  function ErrorMessage(errorType: string, attempt: int, maxRetries: int): (m: string)
    ensures errorType == "quota" ==> m == QuotaMessage
    ensures errorType == "auth" ==> m == AuthMessage
    ensures errorType == "other" ==> m == OtherMessage
    ensures errorType !in {"connection", "server", "quota", "auth", "other"} ==> m == UnexpectedMessage
    ensures errorType in {"connection", "server"} && attempt != 0 ==>
              StartsWith(m, "Retry " + IntToString(attempt) + "/" + IntToString(maxRetries) + " - ")
    ensures errorType == "connection" && attempt == 0 ==> m == ConnectionNotice
    ensures errorType == "connection" && attempt != 0 ==>
              m == "Retry " + IntToString(attempt) + "/" + IntToString(maxRetries) + " - " + ConnectionRetry
    ensures errorType == "server" && attempt == 0 ==> m == ServerNotice
    ensures errorType == "server" && attempt != 0 ==>
              m == "Retry " + IntToString(attempt) + "/" + IntToString(maxRetries) + " - " + ServerRetry
  {
    var counter := "Retry " + IntToString(attempt) + "/" + IntToString(maxRetries) + " - ";
    if errorType == "connection" then
      (if attempt == 0 then ConnectionNotice else counter + ConnectionRetry)
    else if errorType == "server" then
      (if attempt == 0 then ServerNotice else counter + ServerRetry)
    else if errorType == "quota" then QuotaMessage
    else if errorType == "auth" then AuthMessage
    else if errorType == "other" then OtherMessage
    else UnexpectedMessage
  }

  /** `getFinalErrorMessage`: total, with a fallback for an unknown type. */
  function FinalErrorMessage(errorType: string): (m: string)
    ensures m == UnexpectedMessage <==> errorType !in {"connection", "server", "quota", "auth", "other"}
    ensures errorType in {"quota", "auth", "other"} ==> m == ErrorMessage(errorType, 0, 0)
  {
    if errorType == "connection" then
      "Connection failed after multiple attempts. Please check your internet connection or proxy settings."
    else if errorType == "server" then "Server is currently unavailable. Please try again later."
    else if errorType == "quota" then QuotaMessage
    else if errorType == "auth" then AuthMessage
    else if errorType == "other" then OtherMessage
    else UnexpectedMessage
  }

  /** How one invocation of the operation ended, as seen through the timeout race. */
  datatype Attempt = Settled(reply: Reply) | TimedOut

  predicate Succeeded(a: Attempt) {
    a.Settled? && a.reply.Answer?
  }

  /** The error caught for a failed attempt. */
  function AttemptError(a: Attempt): JsError
    requires !Succeeded(a)
  {
    if a.TimedOut? then TimeoutError() else a.reply.error
  }

  /** The arguments of one `onRetry(attempt, maxRetries, errorType, delay)` call. */
  datatype RetryNotice = RetryNotice(attempt: int, maxRetries: int, errorType: ErrorKind, delay: int)

  /** The enhanced error thrown when no attempt succeeds. */
  datatype FinalError = FinalError(message: string, errorType: ErrorKind, originalError: Option<JsError>, attempts: int)

  /** What a run of the loop produces: its result, how often it invoked the operation, and the retries it announced. */
  datatype Trace = Trace(result: Result<string, FinalError>, invocations: nat, retries: seq<RetryNotice>)

  /** The sleeps that follow the announced retries. */
  function Delays(retries: seq<RetryNotice>): (d: seq<int>)
    ensures |d| == |retries|
    ensures forall j :: 0 <= j < |retries| ==> d[j] == retries[j].delay
  {
    seq(|retries|, j requires 0 <= j < |retries| => retries[j].delay)
  }

  class RetryManager {
    const maxRetries: int
    const baseDelay: int
    const timeout: int

    constructor (maxRetries: int, baseDelay: int, timeout: int)
      ensures this.maxRetries == maxRetries && this.baseDelay == baseDelay && this.timeout == timeout
    {
      this.maxRetries := maxRetries;
      this.baseDelay := baseDelay;
      this.timeout := timeout;
    }

    /** The default policy: five attempts, 1000 ms base delay, 30 s per attempt. */
    constructor Default()
      ensures maxRetries == 5 && baseDelay == 1000 && timeout == 30000
    {
      maxRetries := 5;
      baseDelay := 1000;
      timeout := 30000;
    }

    /** `calculateDelay`: exponential backoff. */
    function CalculateDelay(attempt: int): int
      requires attempt >= 1
    {
      baseDelay * Pow2(attempt - 1)
    }

    /** The first delay is the base delay, and each next one doubles the previous. */
    lemma {:induction false} BackoffDoubles(attempt: int)
      requires attempt >= 1
      ensures CalculateDelay(1) == baseDelay
      ensures CalculateDelay(attempt + 1) == 2 * CalculateDelay(attempt)
    {
      assert Pow2(attempt) == 2 * Pow2(attempt - 1);
    }

    /** With the default base delay the first four delays are 1, 2, 4 and 8 seconds. */
    lemma DefaultBackoff()
      requires baseDelay == 1000
      ensures CalculateDelay(1) == 1000 && CalculateDelay(2) == 2000
      ensures CalculateDelay(3) == 4000 && CalculateDelay(4) == 8000
    {
    }

    /** The enhanced error built after the loop. */
    function Final(kind: ErrorKind, last: Option<JsError>): FinalError {
      FinalError(FinalErrorMessage(kind.Name()), kind, last, maxRetries)
    }

    function KindAt(op: nat -> Attempt, i: nat): ErrorKind
      requires !Succeeded(op(i))
    {
      ClassifyError(AttemptError(op(i)))
    }

    /**
     * The loop from attempt `attempt` on, with `last`/`kind` the error and type
     * kept from the previous failure.
     */
    function Run(op: nat -> Attempt, attempt: int, last: Option<JsError>, kind: ErrorKind): Trace
      requires attempt >= 1
      decreases maxRetries - attempt + 1
    {
      if attempt > maxRetries then Trace(Failure(Final(kind, last)), 0, [])
      else if Succeeded(op(attempt)) then Trace(Success(op(attempt).reply.text), 1, [])
      else
        var e := AttemptError(op(attempt));
        var k := ClassifyError(e);
        if k.FailFast() || attempt == maxRetries then Trace(Failure(Final(k, Some(e))), 1, [])
        else
          var rest := Run(op, attempt + 1, Some(e), k);
          Trace(rest.result, rest.invocations + 1,
                [RetryNotice(attempt, maxRetries, k, CalculateDelay(attempt))] + rest.retries)
    }

    /** The whole `executeWithRetry`, starting from `lastError = null, errorType = 'other'`. */
    function Governed(op: nat -> Attempt): Trace {
      Run(op, 1, None, Other)
    }

    /**
     * `executeWithRetry(operation, onRetry)`. `op(n)` is how the n-th
     * invocation ends; `onRetry` says whether a callback was supplied.
     * Returns the result (value or enhanced error), the number of
     * invocations, the backoff sleeps taken, and the callback calls made.
     */
    method ExecuteWithRetry(op: nat -> Attempt, onRetry: bool)
      returns (result: Result<string, FinalError>, invocations: nat, waits: seq<int>, callbacks: seq<RetryNotice>)
      ensures result == Governed(op).result
      ensures invocations == Governed(op).invocations
      ensures waits == Delays(Governed(op).retries)
      ensures callbacks == if onRetry then Governed(op).retries else []
    {
      var lastError: Option<JsError> := None;
      var errorType := Other;
      var retries: seq<RetryNotice> := [];
      invocations := 0;
      var attempt := 1;
      while attempt <= maxRetries
        invariant 1 <= attempt && invocations == attempt - 1
        invariant attempt > 1 ==> lastError.Some?
        invariant Governed(op) == (var rest := Run(op, attempt, lastError, errorType);
                                   Trace(rest.result, invocations + rest.invocations, retries + rest.retries))
        decreases maxRetries - attempt + 1
      {
        invocations := invocations + 1;
        var outcome := op(attempt);
        if Succeeded(outcome) {
          result := Success(outcome.reply.text);
          assert retries + [] == retries;
          waits := Delays(retries);
          callbacks := if onRetry then retries else [];
          return;
        }
        var error := AttemptError(outcome);
        lastError := Some(error);
        errorType := ClassifyError(error);
        if errorType.FailFast() || attempt == maxRetries {
          assert retries + [] == retries;
          break;
        }
        var delay := CalculateDelay(attempt);
        ghost var rest := Run(op, attempt + 1, lastError, errorType);
        assert retries + ([RetryNotice(attempt, maxRetries, errorType, delay)] + rest.retries)
            == (retries + [RetryNotice(attempt, maxRetries, errorType, delay)]) + rest.retries;
        retries := retries + [RetryNotice(attempt, maxRetries, errorType, delay)];
        attempt := attempt + 1;
      }
      assert retries + [] == retries;
      result := Failure(Final(errorType, lastError));
      waits := Delays(retries);
      callbacks := if onRetry then retries else [];
    }

    /** A run from attempt `a` stops within the remaining budget and announces a retry after every invocation but the last. */
    lemma {:induction false} RunBudget(op: nat -> Attempt, a: int, last: Option<JsError>, kind: ErrorKind)
      requires a >= 1
      ensures var t := Run(op, a, last, kind);
        && (a > maxRetries ==> t == Trace(Failure(Final(kind, last)), 0, []))
        && (a <= maxRetries ==> 1 <= t.invocations <= maxRetries - a + 1)
        && |t.retries| == (if t.invocations == 0 then 0 else t.invocations - 1)
      decreases maxRetries - a + 1
    {
      if a <= maxRetries && !Succeeded(op(a)) {
        var e := AttemptError(op(a));
        var k := ClassifyError(e);
        if !(k.FailFast() || a == maxRetries) {
          RunBudget(op, a + 1, Some(e), k);
        }
      }
    }

    /** The retry `r` announced after the failed, retryable invocation `i`. */
    predicate NoticeFor(op: nat -> Attempt, i: nat, r: RetryNotice) {
      && i >= 1
      && !Succeeded(op(i))
      && !KindAt(op, i).FailFast()
      && r == RetryNotice(i, maxRetries, KindAt(op, i), CalculateDelay(i))
    }

    /** The j-th retry a run from `a` announces is for the failed, retryable invocation `a + j`. */
    lemma {:induction false} RunRetries(op: nat -> Attempt, a: nat, last: Option<JsError>, kind: ErrorKind)
      requires a >= 1
      ensures forall j :: 0 <= j < |Run(op, a, last, kind).retries| ==>
                NoticeFor(op, a + j, Run(op, a, last, kind).retries[j])
      decreases maxRetries - a + 1
    {
      if a <= maxRetries && !Succeeded(op(a)) {
        var e := AttemptError(op(a));
        var k := ClassifyError(e);
        if !(k.FailFast() || a == maxRetries) {
          RunRetries(op, a + 1, Some(e), k);
          var rest := Run(op, a + 1, Some(e), k).retries;
          var rs := Run(op, a, last, kind).retries;
          assert rs == [RetryNotice(a, maxRetries, k, CalculateDelay(a))] + rest;
          forall j | 0 <= j < |rs|
            ensures NoticeFor(op, a + j, rs[j])
          {
            if j > 0 {
              assert rs[j] == rest[j - 1];
              assert NoticeFor(op, (a + 1) + (j - 1), rest[j - 1]);
            }
          }
        }
      }
    }

    /**
     * How a trace of a run from attempt `a` ends: with the answer of its last
     * invocation, or with the error of its last invocation when that failed for
     * good.
     */
    predicate EndsAtLast(op: nat -> Attempt, a: nat, t: Trace) {
      && (t.result.Success? ==>
            t.invocations >= 1 && op(a + t.invocations - 1) == Settled(Answer(t.result.value)))
      && (t.result.Failure? && t.invocations >= 1 ==>
            && !Succeeded(op(a + t.invocations - 1))
            && t.result.error == Final(KindAt(op, a + t.invocations - 1), Some(AttemptError(op(a + t.invocations - 1))))
            && (KindAt(op, a + t.invocations - 1).FailFast() || a + t.invocations - 1 == maxRetries))
    }

    /** A run from `a` ends with the first success, or with the error of its last invocation. */
    lemma {:induction false} RunEnd(op: nat -> Attempt, a: nat, last: Option<JsError>, kind: ErrorKind)
      requires a >= 1
      ensures EndsAtLast(op, a, Run(op, a, last, kind))
      decreases maxRetries - a + 1, 1
    {
      if a > maxRetries || Succeeded(op(a)) {
      } else if KindAt(op, a).FailFast() || a == maxRetries {
        var e := AttemptError(op(a));
        assert Run(op, a, last, kind) == Trace(Failure(Final(KindAt(op, a), Some(e))), 1, []);
      } else {
        RunEndStep(op, a, last, kind);
      }
    }

    /** The inductive step of RunEnd: a retried attempt hands over to the run from the next one. */
    lemma {:induction false} RunEndStep(op: nat -> Attempt, a: nat, last: Option<JsError>, kind: ErrorKind)
      requires 1 <= a < maxRetries && !Succeeded(op(a)) && !KindAt(op, a).FailFast()
      ensures EndsAtLast(op, a, Run(op, a, last, kind))
      decreases maxRetries - a + 1, 0
    {
      var e := AttemptError(op(a));
      var k := KindAt(op, a);
      RunEnd(op, a + 1, Some(e), k);
      RunBudget(op, a + 1, Some(e), k);
      var rest := Run(op, a + 1, Some(e), k);
      var t := Run(op, a, last, kind);
      assert t.result == rest.result && t.invocations == rest.invocations + 1;
      assert a + t.invocations - 1 == (a + 1) + rest.invocations - 1;
    }

    /** The operation is invoked at most `maxRetries` times, and at least once when that is positive. */
    lemma InvocationCeiling(op: nat -> Attempt)
      ensures Governed(op).invocations <= (if maxRetries < 0 then 0 else maxRetries)
      ensures maxRetries >= 1 ==> Governed(op).invocations >= 1
      ensures |Governed(op).retries| <= (if maxRetries < 1 then 0 else maxRetries - 1)
    {
      RunBudget(op, 1, None, Other);
    }

    /**
     * `onRetry` is announced once per invocation but the last, for the n-th
     * invocation with its classified, retryable type and `calculateDelay(n)`.
     */
    lemma RetriesFollowFailures(op: nat -> Attempt)
      ensures var t := Governed(op);
        && |t.retries| == (if t.invocations == 0 then 0 else t.invocations - 1)
        && forall j :: 0 <= j < |t.retries| ==> NoticeFor(op, j + 1, t.retries[j])
    {
      RunBudget(op, 1, None, Other);
      RunRetries(op, 1, None, Other);
    }

    /**
     * A success ends the loop: it is the last invocation, and every earlier
     * invocation failed with a retryable type.
     */
    lemma SuccessIsLastInvocation(op: nat -> Attempt)
      ensures var t := Governed(op);
        t.result.Success? ==>
          && t.invocations >= 1
          && op(t.invocations) == Settled(Answer(t.result.value))
          && forall i :: 1 <= i < t.invocations ==> !Succeeded(op(i)) && !KindAt(op, i).FailFast()
    {
      RunBudget(op, 1, None, Other);
      RunRetries(op, 1, None, Other);
      RunEnd(op, 1, None, Other);
      var t := Governed(op);
      forall i | 1 <= i < t.invocations
        ensures !Succeeded(op(i)) && !KindAt(op, i).FailFast()
      {
        assert t.retries[i - 1].attempt == i;
      }
    }

    /**
     * The first success within the budget is returned, after exactly that
     * many invocations, when every earlier attempt failed retryably.
     */
    lemma {:induction false} FirstSuccessWins(op: nat -> Attempt, n: nat)
      requires 1 <= n <= maxRetries && Succeeded(op(n))
      requires forall i :: 1 <= i < n ==> !Succeeded(op(i)) && !KindAt(op, i).FailFast()
      ensures Governed(op).result == Success(op(n).reply.text)
      ensures Governed(op).invocations == n
    {
      RunBudget(op, 1, None, Other);
      RunRetries(op, 1, None, Other);
      RunEnd(op, 1, None, Other);
      var t := Governed(op);
      forall i | 1 <= i < t.invocations
        ensures !Succeeded(op(i))
      {
        assert t.retries[i - 1].attempt == i;
      }
    }

    /**
     * When the loop gives up, the thrown error carries the last type, its final
     * message and the last error, and reports `maxRetries` attempts however
     * many were made; without any attempt it is type 'other' with no cause.
     */
    lemma FailureReport(op: nat -> Attempt)
      ensures var t := Governed(op);
        t.result.Failure? ==>
          var err := t.result.error;
          && err.attempts == maxRetries
          && err.message == FinalErrorMessage(err.errorType.Name())
          && (t.invocations == 0 ==> err.errorType == Other && err.originalError == None)
          && (t.invocations >= 1 ==>
                && !Succeeded(op(t.invocations))
                && err.originalError == Some(AttemptError(op(t.invocations)))
                && err.errorType == ClassifyError(AttemptError(op(t.invocations)))
                && (err.errorType.FailFast() || t.invocations == maxRetries))
      ensures maxRetries <= 0 ==> Governed(op) == Trace(Failure(Final(Other, None)), 0, [])
    {
      RunBudget(op, 1, None, Other);
      RunEnd(op, 1, None, Other);
    }

    /** A quota, auth or other failure on the first attempt stops after that one invocation. */
    lemma FailFastOnFirst(op: nat -> Attempt)
      requires maxRetries >= 1 && !Succeeded(op(1)) && KindAt(op, 1).FailFast()
      ensures Governed(op) == Trace(Failure(Final(KindAt(op, 1), Some(AttemptError(op(1))))), 1, [])
    {
    }

    /**
     * When every attempt fails retryably, the operation runs exactly
     * `maxRetries` times and the error reports the last attempt's type.
     */
    lemma ExhaustsBudget(op: nat -> Attempt)
      requires maxRetries >= 1
      requires forall i :: 1 <= i <= maxRetries ==> !Succeeded(op(i)) && !KindAt(op, i).FailFast()
      ensures Governed(op).invocations == maxRetries
      ensures |Governed(op).retries| == maxRetries - 1
      ensures Governed(op).result == Failure(Final(KindAt(op, maxRetries), Some(AttemptError(op(maxRetries)))))
    {
      RunBudget(op, 1, None, Other);
      RunEnd(op, 1, None, Other);
      SuccessIsLastInvocation(op);
      assert !Succeeded(op(Governed(op).invocations));
    }
  }
}
