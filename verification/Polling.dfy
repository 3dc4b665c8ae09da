/** waitForSignature: poll a transaction's status until it settles, with one error budget for the whole wait. */
module Polling {
  datatype TransactionStatus =
    | COMPLETED | BROADCASTING
    | BLOCKED | CANCELLED | FAILED | REJECTED
    | PENDING(name: string)

  /** One answer of the API: a status, or a failed request. */
  datatype Poll = Status(status: TransactionStatus) | RequestError

  const MAX_RETRIES: nat := 3

  /** How the wait ends: with the response of a poll, with an exception at a poll, or not within these answers. */
  datatype Verdict = Returned(at: nat) | Threw(at: nat) | StillWaiting

  predicate IsFinal(p: Poll) {
    p.Status? && (p.status == COMPLETED || p.status == BROADCASTING)
  }

  predicate IsFailed(p: Poll) {
    p.Status? && p.status in {BLOCKED, CANCELLED, FAILED, REJECTED}
  }

  function Errors(polls: seq<Poll>): nat {
    if polls == [] then 0 else Errors(polls[..|polls| - 1]) + (if polls[|polls| - 1].RequestError? then 1 else 0)
  }

  /** Nothing before answer `i` has ended the wait. */
  predicate Open(polls: seq<Poll>, i: nat)
    requires i <= |polls|
  {
    && (forall j :: 0 <= j < i ==> !IsFinal(polls[j]) && !IsFailed(polls[j]))
    && (0 < i ==> polls[0].Status?)
    && Errors(polls[..i]) <= 3
  }

  /** A final status arrives before any failed status, before the fourth error, and not after a failed first request. */
  predicate ReturnsAt(polls: seq<Poll>, i: nat) {
    i < |polls| && Open(polls, i) && IsFinal(polls[i])
  }

  /** A failed status, the first request failing, or the fourth error comes first. */
  predicate ThrowsAt(polls: seq<Poll>, i: nat) {
    i < |polls| && Open(polls, i)
    && (IsFailed(polls[i]) || (polls[i].RequestError? && (i == 0 || Errors(polls[..i]) == 3)))
  }

  lemma ErrorsStep(polls: seq<Poll>, i: nat)
    requires i < |polls|
    ensures Errors(polls[..i + 1]) == Errors(polls[..i]) + (if polls[i].RequestError? then 1 else 0)
  {
    assert polls[..i + 1][..i] == polls[..i];
  }

  lemma {:induction false} ErrorsGrow(polls: seq<Poll>, i: nat, j: nat)
    requires i <= j <= |polls|
    ensures Errors(polls[..i]) <= Errors(polls[..j])
    decreases j
  {
    if i < j {
      ErrorsGrow(polls, i, j - 1);
      ErrorsStep(polls, j - 1);
    }
  }

  /** At most one answer can end the wait, and in one way. */
  lemma OneEnd(polls: seq<Poll>, i: nat, j: nat)
    requires ReturnsAt(polls, i) || ThrowsAt(polls, i)
    requires ReturnsAt(polls, j) || ThrowsAt(polls, j)
    ensures i == j && !(ReturnsAt(polls, i) && ThrowsAt(polls, i))
  {
    if i < j {
      ErrorsStep(polls, i);
      ErrorsGrow(polls, i + 1, j);
    } else if j < i {
      ErrorsStep(polls, j);
      ErrorsGrow(polls, j + 1, i);
    }
  }

  /** The polling loop; the first request is outside the retry handling. */
  method WaitForSignature(polls: seq<Poll>) returns (v: Verdict)
    ensures v.Returned? ==> ReturnsAt(polls, v.at)
    ensures v.Threw? ==> ThrowsAt(polls, v.at)
    ensures v.StillWaiting? ==> Open(polls, |polls|)
  {
    var retries := 0;
    if polls == [] {
      return StillWaiting;
    }
    if polls[0].RequestError? {
      return Threw(0);
    }
    var txResponse := polls[0].status;
    var lastStatus := txResponse;
    var current, next := 0, 1;
    ErrorsStep(polls, 0);
    while txResponse != COMPLETED && txResponse != BROADCASTING
      invariant current < next <= |polls| && polls[current] == Status(txResponse)
      invariant Open(polls, current)
      invariant forall j :: current < j < next ==> polls[j].RequestError?
      invariant forall j :: 0 <= j < current ==> !IsFinal(polls[j]) && !IsFailed(polls[j])
      invariant current + 1 < next ==> !IsFinal(polls[current]) && !IsFailed(polls[current])
      invariant polls[0].Status?
      invariant retries == Errors(polls[..next]) <= MAX_RETRIES
      decreases |polls| - next
    {
      if txResponse in {BLOCKED, CANCELLED, FAILED, REJECTED} {
        return Threw(current);
      }
      if next == |polls| {
        return StillWaiting;
      }
      ErrorsStep(polls, next);
      if polls[next].RequestError? {
        if retries >= MAX_RETRIES {
          return Threw(next);
        }
        retries := retries + 1;
        next := next + 1;
        continue;
      }
      txResponse := polls[next].status;
      current := next;
      next := next + 1;
      if txResponse != lastStatus {
        lastStatus := txResponse;
      }
    }
    return Returned(current);
  }

  /**
   * With the loop's contract this fixes the verdict: it returns exactly when a final status arrives before
   * any failed status and before the fourth polling error, the first request not having failed.
   */
  lemma VerdictExact(polls: seq<Poll>, v: Verdict)
    requires v.Returned? ==> ReturnsAt(polls, v.at)
    requires v.Threw? ==> ThrowsAt(polls, v.at)
    requires v.StillWaiting? ==> Open(polls, |polls|)
    ensures v.Returned? <==> exists i: nat :: ReturnsAt(polls, i)
    ensures v.Threw? <==> exists i: nat :: ThrowsAt(polls, i)
  {
    forall i: nat, j: nat | (ReturnsAt(polls, i) || ThrowsAt(polls, i)) && (ReturnsAt(polls, j) || ThrowsAt(polls, j))
      ensures i == j && !(ReturnsAt(polls, i) && ThrowsAt(polls, i))
    {
      OneEnd(polls, i, j);
    }
    if v.StillWaiting? {
      forall i: nat
        ensures !ReturnsAt(polls, i) && !ThrowsAt(polls, i)
      {
        if ThrowsAt(polls, i) && polls[i].RequestError? {
          ErrorsStep(polls, i);
          ErrorsGrow(polls, i + 1, |polls|);
        }
      }
    }
  }
}
