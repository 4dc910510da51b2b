/** Reconnect and report backoff (zizq/src/worker.rs): the doubling delay and
    the reply classes the worker branches on. */
module Backoff {

  const INITIAL_BACKOFF: nat := 500
  const MAX_BACKOFF: nat := 30000

  function NextBackoff(current: nat): nat {
    if current * 2 < MAX_BACKOFF then current * 2 else MAX_BACKOFF
  }

  function Pow2(k: nat): nat {
    if k == 0 then 1 else 2 * Pow2(k - 1)
  }

  /** The closed form of the k-th delay of a retry loop, counting from 0. */
  function BackoffAt(k: nat): nat {
    if 500 * Pow2(k) < MAX_BACKOFF then 500 * Pow2(k) else MAX_BACKOFF
  }

  lemma {:induction false} Pow2Monotone(j: nat, k: nat)
    requires j <= k
    ensures Pow2(j) <= Pow2(k)
    decreases k
  {
    if j < k {
      Pow2Monotone(j, k - 1);
    }
  }

  /** One doubling moves the closed form one step on, also across the cap. */
  lemma NextBackoffStep(k: nat)
    ensures NextBackoff(BackoffAt(k)) == BackoffAt(k + 1)
  {
    assert Pow2(k + 1) == 2 * Pow2(k);
  }

  /** The delay is exact doubling up to the sixth retry and the cap from there on. */
  lemma BackoffShape(k: nat)
    ensures k < 6 ==> BackoffAt(k) == 500 * Pow2(k)
    ensures k >= 6 ==> BackoffAt(k) == MAX_BACKOFF
    ensures INITIAL_BACKOFF <= BackoffAt(k) <= MAX_BACKOFF
  {
    assert Pow2(6) == 64 && Pow2(5) == 32 by {
      assert Pow2(1) == 2 && Pow2(2) == 4 && Pow2(3) == 8 && Pow2(4) == 16;
    }
    if k < 6 {
      Pow2Monotone(k, 5);
    } else {
      Pow2Monotone(6, k);
    }
    Pow2Monotone(0, k);
  }

  function Sum(s: seq<nat>): nat {
    if s == [] then 0 else Sum(s[..|s| - 1]) + s[|s| - 1]
  }

  function Delays(k: nat): (r: seq<nat>)
    ensures |r| == k
  {
    if k == 0 then [] else Delays(k - 1) + [BackoffAt(k - 1)]
  }

  /** Total time slept by k consecutive retries. */
  lemma {:induction false} TotalDelay(k: nat)
    ensures k <= 6 ==> Sum(Delays(k)) == 500 * (Pow2(k) - 1)
    ensures k >= 6 ==> Sum(Delays(k)) == 31500 + 30000 * (k - 6)
  {
    if k > 0 {
      TotalDelay(k - 1);
      BackoffShape(k - 1);
      assert Delays(k)[..k - 1] == Delays(k - 1);
      assert Pow2(k) == 2 * Pow2(k - 1);
      if k == 6 {
        assert Pow2(1) == 2 && Pow2(2) == 4 && Pow2(3) == 8 && Pow2(4) == 16 && Pow2(5) == 32 && Pow2(6) == 64;
      }
    }
  }

  /** What one HTTP exchange came back with, as far as the worker can tell. */
  datatype Reply =
    | Status(code: nat)   // a response with this status and, where one is decoded, a good body
    | NoResponse          // transport failure
    | BadBody             // a 2xx whose body did not decode
    | NotEncoded          // the request body could not be serialised

  datatype Class = Success | Terminal | Transient

  predicate IsClientError(r: Reply) {
    r.Status? && 400 <= r.code <= 499
  }

  /** `report_success_bulk`: 204 and 422 succeed, any other 4xx is final, all else retries. */
  function ClassifyAck(r: Reply): Class {
    if r == Status(204) || r == Status(422) then Success
    else if IsClientError(r) then Terminal
    else Transient
  }

  /** `report_failure` and the take connect: any 2xx succeeds, 4xx is final, all else retries. */
  function ClassifyCall(r: Reply): Class {
    if r.Status? && 200 <= r.code <= 299 then Success
    else if IsClientError(r) then Terminal
    else Transient
  }
}
