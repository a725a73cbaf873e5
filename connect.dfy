/**
 * The bounded connect-retry loop of a peer task: up to three attempts to
 * build the client to the peer cluster, with a one-minute pause after every
 * failed attempt.
 *
 * The client factory is not modelled; `succeeds(k)` says whether attempt
 * number `k` (counting from 0) would return a client.
 */
module Connect {
  import opened Model

  /**
   * The number of failed attempts, from attempt `from` on, before the first
   * success, never counting beyond attempt `budget`.
   */
  function FailedAttempts(succeeds: nat -> bool, from: nat, budget: nat): (r: nat)
    requires from <= budget
    ensures from <= r <= budget
    ensures forall k :: from <= k < r ==> !succeeds(k)
    ensures r < budget ==> succeeds(r)
    decreases budget - from
  {
    if from == budget then budget
    else if succeeds(from) then from
    else FailedAttempts(succeeds, from + 1, budget)
  }

  /**
   * The retry loop of `GenerateAdvertisement`. `retry` is the loop counter
   * as the source leaves it, `attempts` the number of client constructions
   * tried, `sleeps` the number of one-minute pauses and `waited` their total.
   */
  method ConnectWithRetry(succeeds: nat -> bool) returns (retry: nat, attempts: nat, sleeps: nat, waited: int)
    ensures retry <= MaxConnectAttempts
    ensures retry < MaxConnectAttempts ==> succeeds(retry)
    ensures forall k :: 0 <= k < retry ==> !succeeds(k)
    ensures retry == MaxConnectAttempts <==> forall k :: 0 <= k < MaxConnectAttempts ==> !succeeds(k)
    ensures attempts == if retry < MaxConnectAttempts then retry + 1 else MaxConnectAttempts
    ensures sleeps == retry && waited == sleeps * RetryDelay
    ensures retry == FailedAttempts(succeeds, 0, MaxConnectAttempts)
  {
    retry, attempts, sleeps, waited := 0, 0, 0, 0;
    while retry < MaxConnectAttempts
      invariant retry <= MaxConnectAttempts
      invariant forall k :: 0 <= k < retry ==> !succeeds(k)
      invariant attempts == retry && sleeps == retry && waited == sleeps * RetryDelay
      invariant FailedAttempts(succeeds, retry, MaxConnectAttempts) == FailedAttempts(succeeds, 0, MaxConnectAttempts)
    {
      attempts := attempts + 1;
      if !succeeds(retry) {
        sleeps := sleeps + 1;
        waited := waited + RetryDelay;
      } else {
        break;
      }
      retry := retry + 1;
    }
  }

  /** The failed-attempt count is determined by the outcomes alone: it is the first success, capped. */
  lemma FailedAttemptsUnique(succeeds: nat -> bool, budget: nat, n: nat)
    requires n <= budget
    requires forall k :: 0 <= k < n ==> !succeeds(k)
    requires n < budget ==> succeeds(n)
    ensures FailedAttempts(succeeds, 0, budget) == n
  {
  }

  /** A factory that fails twice and then succeeds costs two pauses and connects on the third attempt. */
  lemma TwoFailuresThenSuccess(succeeds: nat -> bool)
    requires !succeeds(0) && !succeeds(1) && succeeds(2)
    ensures FailedAttempts(succeeds, 0, MaxConnectAttempts) == 2
  {
    FailedAttemptsUnique(succeeds, MaxConnectAttempts, 2);
  }

  /** A factory that fails three times exhausts the budget. */
  lemma ThreeFailures(succeeds: nat -> bool)
    requires !succeeds(0) && !succeeds(1) && !succeeds(2)
    ensures FailedAttempts(succeeds, 0, MaxConnectAttempts) == MaxConnectAttempts
  {
    FailedAttemptsUnique(succeeds, MaxConnectAttempts, 3);
  }
}
