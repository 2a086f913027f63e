/**
 The HTTP request budget of a run and the retry loop that spends it: every attempt, retries
 included, is paid for before it is sent.
 */
module RequestBudget {
  /** What one attempt meets: a transport error, or an HTTP status. */
  datatype Answer = TransportError | Status(code: nat)

  datatype Result = Response(code: nat) | ApiError(retryable: bool) | BudgetExceeded

  predicate RetryableStatus(code: nat) {
    code == 408 || code == 425 || code == 429 || code >= 500
  }

  /** Whether an answer is worth another attempt. */
  predicate Retries(a: Answer) {
    a.TransportError? || RetryableStatus(a.code)
  }

  /** What the caller gets from the last answer. */
  function Final(a: Answer): (r: Result)
    ensures r == ApiError(true) <==> Retries(a)
    ensures r.Response? <==> a.Status? && a.code < 400
    ensures r.Response? ==> r.code == a.code
  {
    if a.TransportError? then ApiError(true)
    else if a.code >= 400 then ApiError(RetryableStatus(a.code))
    else Response(a.code)
  }

  /** How many of `answers` are consumed: up to the first that ends the loop, or the last allowed. */
  function Attempts(answers: seq<Answer>, maxRetries: nat): nat
    requires |answers| > maxRetries
    decreases maxRetries
  {
    if maxRetries == 0 || !Retries(answers[0]) then 1 else 1 + Attempts(answers[1..], maxRetries - 1)
  }

  lemma {:induction false} AttemptsInRange(answers: seq<Answer>, maxRetries: nat)
    requires |answers| > maxRetries
    ensures 1 <= Attempts(answers, maxRetries) <= maxRetries + 1
    ensures forall i | 0 <= i < Attempts(answers, maxRetries) - 1 :: Retries(answers[i])
    ensures Attempts(answers, maxRetries) <= maxRetries ==> !Retries(answers[Attempts(answers, maxRetries) - 1])
    decreases maxRetries
  {
    if maxRetries > 0 && Retries(answers[0]) {
      AttemptsInRange(answers[1..], maxRetries - 1);
      assert forall i | 0 < i < |answers| :: answers[i] == answers[1..][i - 1];
    }
  }

  lemma {:induction false} AttemptsAre(answers: seq<Answer>, maxRetries: nat, n: nat)
    requires |answers| > maxRetries && n <= maxRetries
    requires forall i | 0 <= i < n :: Retries(answers[i])
    requires n == maxRetries || !Retries(answers[n])
    ensures Attempts(answers, maxRetries) == n + 1
    decreases maxRetries
  {
    if n > 0 {
      assert forall i | 0 < i < |answers| :: answers[i] == answers[1..][i - 1];
      AttemptsAre(answers[1..], maxRetries - 1, n - 1);
    }
  }

  /** Nothing came back, the server asked to wait or to come again, or it failed. */
  predicate Transient(a: Answer) {
    match a
    case TransportError => true
    case Status(code) => code in {408, 425, 429} || code >= 500
  }

  class BlueskyRequestBudget {
    const limit: nat
    var used: nat

    ghost predicate Valid()
      reads this
    {
      used <= limit
    }

    constructor (limit: nat)
      ensures this.limit == limit && used == 0 && Valid()
    {
      this.limit, used := limit, 0;
    }

    /** `false` is the budget error, raised before the request is sent. */
    method Consume() returns (ok: bool)
      requires Valid()
      modifies this
      ensures Valid()
      ensures ok <==> old(used) < limit
      ensures used == old(used) + if ok then 1 else 0
    {
      if used >= limit {
        return false;
      }
      used := used + 1;
      return true;
    }

    /**
     The retry loop. `answers` is what the server would answer; `sent` counts the requests
     that really went out, and the budget is charged for exactly these.
     */
    method RequestWithRetries(answers: seq<Answer>, maxRetries: nat) returns (result: Result, sent: nat)
      requires Valid() && |answers| > maxRetries
      modifies this
      ensures Valid() && used == old(used) + sent <= limit
      ensures sent <= maxRetries + 1
      ensures result.BudgetExceeded? <==> old(used) + Attempts(answers, maxRetries) > limit
      ensures result.BudgetExceeded? ==> used == limit
      ensures !result.BudgetExceeded? ==>
        sent == Attempts(answers, maxRetries) && result == Final(answers[sent - 1])
      ensures forall i | 0 <= i < sent - 1 :: Transient(answers[i])
      ensures !result.BudgetExceeded? && sent <= maxRetries ==> !Transient(answers[sent - 1])
    {
      sent := 0;
      AttemptsInRange(answers, maxRetries);
      for attempt := 0 to maxRetries + 1
        invariant Valid() && sent == attempt && used == old(used) + sent
        invariant forall i | 0 <= i < attempt :: Retries(answers[i])
        invariant attempt <= maxRetries
      {
        var paid := Consume();
        if !paid {
          StillTrying(answers, maxRetries, attempt);
          return BudgetExceeded, sent;
        }
        sent := sent + 1;
        var answer := answers[attempt];
        if Retries(answer) && attempt < maxRetries {
          continue;
        }
        AttemptsAre(answers, maxRetries, attempt);
        return Final(answer), sent;
      }
      assert false;
      result := ApiError(true);
    }
  }

  lemma StillTrying(answers: seq<Answer>, maxRetries: nat, attempt: nat)
    requires |answers| > maxRetries && attempt <= maxRetries
    requires forall i | 0 <= i < attempt :: Retries(answers[i])
    ensures Attempts(answers, maxRetries) > attempt
  {
    AttemptsInRange(answers, maxRetries);
  }
}
