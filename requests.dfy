/**
 * makeAIRequest as a specification: what one POST attempt yields, the retry loop over
 * attempts, and the exponential backoff it sleeps. The class method in Service follows
 * this specification step by step.
 */
module Requests {
  import opened Php

  /** What Http::post delivers: a connection error (thrown), or a status and the decoded JSON body. */
  datatype HttpOutcome =
    | ConnectionFailed(message: string)
    | Responded(status: int, body: Value)   // body is $response->json(); Null when the body is not JSON

  /** $response->successful(): a 2xx status. */
  predicate Successful(status: int)
  {
    200 <= status < 300
  }

  /** One pass of the loop body: it returns a string, or control reaches the end of the body. */
  datatype Attempt = Returned(content: string) | Failed

  /** `$data['choices'][0]['message']['content']` when the whole isset/is_array chain holds. */
  function ContentPath(data: seq<Entry>): (r: Option<Value>)
    ensures r.Some? ==> !r.value.Null?
    ensures r.Some? <==>
              Isset(data, StrKey("choices")).Some? && Isset(data, StrKey("choices")).value.Arr? &&
              var choices := Isset(data, StrKey("choices")).value.entries;
              Isset(choices, IntKey(0)).Some? && Isset(choices, IntKey(0)).value.Arr? &&
              var first := Isset(choices, IntKey(0)).value.entries;
              Isset(first, StrKey("message")).Some? && Isset(first, StrKey("message")).value.Arr? &&
              Isset(Isset(first, StrKey("message")).value.entries, StrKey("content")).Some?
  {
    match Isset(data, StrKey("choices"))
    case Some(Arr(choices)) =>
      (match Isset(choices, IntKey(0))
       case Some(Arr(first)) =>
         (match Isset(first, StrKey("message"))
          case Some(Arr(message)) => Isset(message, StrKey("content"))
          case _ => None)
       case _ => None)
    case _ => None
  }

  /**
   * The try block for one attempt. A non-2xx status is logged and falls through; a 2xx body
   * that is not an array, or content that is not a string, fails an Assert, which the catch
   * block absorbs, so it falls through too; a connection error is caught likewise.
   */
  function AttemptResult(outcome: HttpOutcome): (r: Attempt)
    ensures r.Returned? ==> outcome.Responded? && Successful(outcome.status) && outcome.body.Arr?
    ensures outcome.Responded? && Successful(outcome.status) && outcome.body.Arr? ==>
              match ContentPath(outcome.body.entries)
              case None => r == Returned("")
              case Some(content) => r == if content.Str? then Returned(content.s) else Failed
  {
    match outcome
    case ConnectionFailed(_) => Failed
    case Responded(status, body) =>
      if !Successful(status) then Failed
      else if !body.Arr? then Failed
      else
        match ContentPath(body.entries)
        case None => Returned("")
        case Some(content) => if content.Str? then Returned(content.s) else Failed
  }

  /** The exception thrown when every attempt failed. */
  function FailureMessage(retryAttempts: int): string
  {
    "AI API request failed after " + IntToString(retryAttempts) + " attempts"
  }

  /** How a whole call of makeAIRequest ends, and how many POSTs it made. */
  datatype Run = Run(result: Result<string>, posts: nat)
  {
    /** The attempts that fell through, each followed by a sleep. */
    function Failures(): nat
    {
      if result.Ok? && posts > 0 then posts - 1 else posts
    }
  }

  /** Attempt i of a call whose first POST is POST number base. */
  function AttemptAt(respond: nat -> HttpOutcome, base: nat, i: nat): Attempt
  {
    AttemptResult(respond(base + i))
  }

  /** The attempts of a call whose first POST is POST number base, indexed by `$attempt`. */
  function Attempts(respond: nat -> HttpOutcome, base: nat): nat -> Attempt
  {
    (i: nat) => AttemptAt(respond, base, i)
  }

  /** No attempt in [from, to) succeeded. */
  ghost predicate AllFailed(attempts: nat -> Attempt, from: nat, to: int)
  {
    forall i: nat :: from <= i < to ==> attempts(i).Failed?
  }

  /**
   * The loop of makeAIRequest from `$attempt == attempt` on: while attempt < retryAttempts,
   * POST; return on the first attempt that returns; otherwise count it and go on. Once the
   * bound is reached, throw.
   */
  function Loop(attempts: nat -> Attempt, retryAttempts: int, attempt: nat): (r: Run)
    ensures attempt >= retryAttempts ==> r == Run(Threw(Failure(FailureMessage(retryAttempts))), 0)
    ensures r.result.Threw? ==> r.result == Threw(Failure(FailureMessage(retryAttempts)))
    decreases if retryAttempts > attempt then retryAttempts - attempt else 0
  {
    if attempt >= retryAttempts then Run(Threw(Failure(FailureMessage(retryAttempts))), 0)
    else
      match attempts(attempt)
      case Returned(content) => Run(Ok(content), 1)
      case Failed =>
        var rest := Loop(attempts, retryAttempts, attempt + 1);
        Run(rest.result, rest.posts + 1)
  }

  /**
   * What the loop does from `$attempt == attempt` on: it stops at the bound; a success comes
   * from the last POST made, after failures only; a throw comes after every remaining attempt failed.
   */
  lemma LoopSpec(attempts: nat -> Attempt, retryAttempts: int, attempt: nat)
    ensures var r := Loop(attempts, retryAttempts, attempt);
            attempt + r.posts <= if retryAttempts > attempt then retryAttempts else attempt
    ensures var r := Loop(attempts, retryAttempts, attempt);
            r.result.Ok? ==>
              r.posts >= 1 && AllFailed(attempts, attempt, attempt + r.posts - 1) &&
              attempts(attempt + r.posts - 1) == Returned(r.result.value)
    ensures var r := Loop(attempts, retryAttempts, attempt);
            r.result.Threw? ==>
              attempt + r.posts == (if retryAttempts > attempt then retryAttempts else attempt) &&
              AllFailed(attempts, attempt, retryAttempts)
  {
    LoopPosts(attempts, retryAttempts, attempt);
    LoopSuccess(attempts, retryAttempts, attempt);
    LoopFailure(attempts, retryAttempts, attempt);
  }

  /** The loop makes at most one POST per remaining attempt, and all of them when it throws. */
  lemma {:induction false} LoopPosts(attempts: nat -> Attempt, retryAttempts: int, attempt: nat)
    ensures var r := Loop(attempts, retryAttempts, attempt);
            attempt + r.posts <= if retryAttempts > attempt then retryAttempts else attempt
    ensures var r := Loop(attempts, retryAttempts, attempt);
            r.result.Threw? ==> attempt + r.posts == if retryAttempts > attempt then retryAttempts else attempt
    decreases if retryAttempts > attempt then retryAttempts - attempt else 0
  {
    if attempt < retryAttempts && attempts(attempt).Failed? {
      LoopPosts(attempts, retryAttempts, attempt + 1);
    }
  }

  /** A success comes from the last POST made, and every attempt before it failed. */
  lemma {:induction false} LoopSuccess(attempts: nat -> Attempt, retryAttempts: int, attempt: nat)
    ensures var r := Loop(attempts, retryAttempts, attempt);
            r.result.Ok? ==>
              r.posts >= 1 && AllFailed(attempts, attempt, attempt + r.posts - 1) &&
              attempts(attempt + r.posts - 1) == Returned(r.result.value)
    decreases if retryAttempts > attempt then retryAttempts - attempt else 0
  {
    if attempt < retryAttempts && attempts(attempt).Failed? {
      var rest := Loop(attempts, retryAttempts, attempt + 1);
      LoopSuccess(attempts, retryAttempts, attempt + 1);
      if rest.result.Ok? {
        AllFailedCons(attempts, attempt, attempt + rest.posts);
      }
    }
  }

  /** A throw comes after every remaining attempt failed. */
  lemma {:induction false} LoopFailure(attempts: nat -> Attempt, retryAttempts: int, attempt: nat)
    ensures Loop(attempts, retryAttempts, attempt).result.Threw? ==> AllFailed(attempts, attempt, retryAttempts)
    decreases if retryAttempts > attempt then retryAttempts - attempt else 0
  {
    if attempt < retryAttempts && attempts(attempt).Failed? {
      LoopFailure(attempts, retryAttempts, attempt + 1);
      if Loop(attempts, retryAttempts, attempt + 1).result.Threw? {
        AllFailedCons(attempts, attempt, retryAttempts);
      }
    }
  }

  lemma AllFailedCons(attempts: nat -> Attempt, from: nat, to: int)
    requires attempts(from).Failed? && AllFailed(attempts, from + 1, to)
    ensures AllFailed(attempts, from, to)
  {
  }

  /** When attempts j .. k-1 fail and attempt k < bound returns, the loop from j returns k's content after k - j + 1 POSTs. */
  lemma {:induction false} LoopReturnsAt(attempts: nat -> Attempt, retryAttempts: int, j: nat, k: nat)
    requires j <= k < retryAttempts && AllFailed(attempts, j, k) && attempts(k).Returned?
    ensures Loop(attempts, retryAttempts, j) == Run(Ok(attempts(k).content), k - j + 1)
    decreases k - j
  {
    if j < k {
      LoopReturnsAt(attempts, retryAttempts, j + 1, k);
    }
  }

  /** When every attempt from j up to the bound fails, the loop from j throws after the remaining POSTs. */
  lemma {:induction false} LoopExhausted(attempts: nat -> Attempt, retryAttempts: int, j: nat)
    requires AllFailed(attempts, j, retryAttempts)
    ensures Loop(attempts, retryAttempts, j) ==
            Run(Threw(Failure(FailureMessage(retryAttempts))), if retryAttempts > j then retryAttempts - j else 0)
    decreases if retryAttempts > j then retryAttempts - j else 0
  {
    if j < retryAttempts {
      LoopExhausted(attempts, retryAttempts, j + 1);
    }
  }

  lemma AllFailedSnoc(attempts: nat -> Attempt, from: nat, to: nat)
    requires AllFailed(attempts, from, to) && attempts(to).Failed?
    ensures AllFailed(attempts, from, to + 1)
  {
  }

  /** makeAIRequest with POSTs numbered from base. */
  function Request(respond: nat -> HttpOutcome, base: nat, retryAttempts: int): Run
  {
    Loop(Attempts(respond, base), retryAttempts, 0)
  }

  /** At most retryAttempts POSTs; none at all, and an immediate throw, when retryAttempts <= 0. */
  lemma RetryBound(respond: nat -> HttpOutcome, base: nat, retryAttempts: int)
    ensures Request(respond, base, retryAttempts).posts <= if retryAttempts > 0 then retryAttempts else 0
    ensures retryAttempts <= 0 ==>
              Request(respond, base, retryAttempts) == Run(Threw(Failure(FailureMessage(retryAttempts))), 0)
  {
    LoopPosts(Attempts(respond, base), retryAttempts, 0);
  }

  /** The call succeeds exactly when some attempt below the bound returns; LoopReturnsAt gives the value, the first returning attempt's. */
  lemma {:induction false} SucceedsIffSomeAttemptReturns(attempts: nat -> Attempt, retryAttempts: int, attempt: nat)
    ensures Loop(attempts, retryAttempts, attempt).result.Ok? <==>
            exists i: nat :: attempt <= i < retryAttempts && attempts(i).Returned?
  {
    var r := Loop(attempts, retryAttempts, attempt);
    LoopSpec(attempts, retryAttempts, attempt);
    if r.result.Ok? {
      var i := attempt + r.posts - 1;
      assert attempts(i).Returned?;
    } else {
      forall i: nat | attempt <= i < retryAttempts
        ensures !attempts(i).Returned?
      {
        assert attempts(i).Failed?;
      }
    }
  }

  function Pow2(n: nat): nat
  {
    if n == 0 then 1 else 2 * Pow2(n - 1)
  }

  /** The sleeps after k failed attempts: sleep(pow(2, $attempt)) once $attempt has been incremented. */
  function Backoff(k: nat): seq<nat>
  {
    if k == 0 then [] else Backoff(k - 1) + [Pow2(k)]
  }

  function Sum(s: seq<nat>): nat
  {
    if s == [] then 0 else Sum(s[..|s| - 1]) + s[|s| - 1]
  }

  /** The i-th sleep lasts 2^(i+1) seconds: 2, 4, 8, ... */
  lemma {:induction false} BackoffShape(k: nat)
    ensures |Backoff(k)| == k
    ensures forall i :: 0 <= i < k ==> Backoff(k)[i] == Pow2(i + 1)
  {
    if k > 0 {
      BackoffShape(k - 1);
    }
  }

  /** After k failures the sleeps add up to 2^(k+1) - 2 seconds. */
  lemma {:induction false} BackoffTotal(k: nat)
    ensures Sum(Backoff(k)) == Pow2(k + 1) - 2
  {
    if k > 0 {
      BackoffTotal(k - 1);
      var s := Backoff(k);
      assert s[..|s| - 1] == Backoff(k - 1);
    }
  }

  /** The sleeps of a run: one per failed attempt, including the last one before the throw. */
  function SleepsOf(run: Run): seq<nat>
  {
    Backoff(run.Failures())
  }

  /** A call that exhausts n > 0 attempts sleeps 2, 4, ..., 2^n, in total 2^(n+1) - 2 seconds. */
  lemma ExhaustedSleeps(respond: nat -> HttpOutcome, base: nat, n: nat)
    requires n > 0 && AllFailed(Attempts(respond, base), 0, n)
    ensures Request(respond, base, n).result == Threw(Failure(FailureMessage(n)))
    ensures Request(respond, base, n).posts == n
    ensures |SleepsOf(Request(respond, base, n))| == n
    ensures Sum(SleepsOf(Request(respond, base, n))) == Pow2(n + 1) - 2
  {
    SucceedsIffSomeAttemptReturns(Attempts(respond, base), n, 0);
    LoopPosts(Attempts(respond, base), n, 0);
    BackoffShape(n);
    BackoffTotal(n);
  }

  /** The response shape the API documents: the content comes back from a 200. */
  lemma WellFormedResponseReturnsContent(content: string)
    ensures AttemptResult(Responded(200, Arr([Entry(StrKey("choices"), Arr([Entry(IntKey(0),
              Arr([Entry(StrKey("message"), Arr([Entry(StrKey("content"), Str(content))]))]))]))])))
            == Returned(content)
  {
  }

  /** A 2xx JSON array without the choices path returns the empty string, which is then cached. */
  lemma MissingChoicesReturnsEmpty(status: int)
    requires Successful(status)
    ensures AttemptResult(Responded(status, Arr([]))) == Returned("")
  {
  }

  /** Failing attempts: a non-2xx status, a 2xx non-array body, non-string content, a connection error. */
  lemma FailingAttempts(status: int, body: Value, message: string)
    ensures !Successful(status) ==> AttemptResult(Responded(status, body)) == Failed
    ensures Successful(status) && !body.Arr? ==> AttemptResult(Responded(status, body)) == Failed
    ensures AttemptResult(Responded(200, Arr([Entry(StrKey("choices"), Arr([Entry(IntKey(0),
              Arr([Entry(StrKey("message"), Arr([Entry(StrKey("content"), Int(42))]))]))]))]))) == Failed
    ensures AttemptResult(ConnectionFailed(message)) == Failed
  {
  }
}
