/** The rate-limited GET: `check_quota_and_get` (views.py:156-178). The network is replaced by
    the sequence of `X-RateLimit-Remaining` values the registry returns to repeated requests of
    one URL; the ten-minute sleep becomes a step of the returned trace. */
module Quota {
  import opened Faults

  /** The registry's answer to one URL: the X-RateLimit-Remaining values of successive responses
      to the same request, and the body of the response the caller finally accepts. */
  datatype Response<T> = Response(remaining: seq<int>, body: T)

  /** What check_quota_and_get does to the outside world. */
  datatype Step = Get(url: string) | Sleep(seconds: nat)

  /** The backoff after a response that reports no remaining quota, in seconds. */
  const Backoff: nat := 600

  /** The position of the first non-zero value, or |s| when every value is zero. */
  function FirstNonZero(s: seq<int>): (k: nat)
    ensures k <= |s|
    ensures forall j :: 0 <= j < k ==> s[j] == 0
    ensures k < |s| ==> s[k] != 0
  {
    if s == [] || s[0] != 0 then 0 else 1 + FirstNonZero(s[1..])
  }

  /** The outcome over the given values: the position of the accepted response, the failed
      assertion on a negative value, or `Stalled` when every observed value is zero. */
  function QuotaOutcome(remaining: seq<int>): Result<nat> {
    var k := FirstNonZero(remaining);
    if k == |remaining| then Err(Stalled)
    else if remaining[k] > 0 then Ok(k)
    else Err(NegativeQuota)
  }

  /** `n` requests of `url` that came back with no quota, each followed by the backoff. */
  function Waits(url: string, n: nat): (t: seq<Step>)
    ensures |t| == 2 * n
    ensures forall i :: 0 <= i < |t| ==> t[i] == if i % 2 == 0 then Get(url) else Sleep(Backoff)
  {
    if n == 0 then [] else Waits(url, n - 1) + [Get(url), Sleep(Backoff)]
  }

  /** The steps check_quota_and_get takes over the given values. */
  function QuotaTrace(url: string, remaining: seq<int>): seq<Step> {
    var k := FirstNonZero(remaining);
    Waits(url, k) + (if k < |remaining| then [Get(url)] else [])
  }

  /** check_quota_and_get(url). Returns the position of the accepted response among `remaining`
      and the steps taken. The `else` branch of the source (a ten-second sleep while the counter is
      negative) is unreachable: the counter is never negative at the top of the loop. */
  method CheckQuotaAndGet(url: string, remaining: seq<int>) returns (r: Result<nat>, trace: seq<Step>)
    ensures r == QuotaOutcome(remaining)
    ensures r.Ok? ==>
      && r.value < |remaining| && remaining[r.value] > 0
      && forall j :: 0 <= j < r.value ==> remaining[j] == 0
    ensures r == Err(NegativeQuota) ==>
      exists k :: 0 <= k < |remaining| && remaining[k] < 0 && forall j :: 0 <= j < k ==> remaining[j] == 0
    ensures trace == QuotaTrace(url, remaining)
  {
    var rateLimitRemaining := 1;
    var i := 0;
    trace := [];
    while i < |remaining|
      invariant 0 <= i <= |remaining|
      invariant rateLimitRemaining >= 0
      invariant forall j :: 0 <= j < i ==> remaining[j] == 0
      invariant trace == Waits(url, i)
    {
      if rateLimitRemaining >= 0 {
        trace := trace + [Get(url)];
        rateLimitRemaining := remaining[i];
        if rateLimitRemaining < 0 {
          r := Err(NegativeQuota);
          return;
        }
        if rateLimitRemaining == 0 {
          trace := trace + [Sleep(Backoff)];
          i := i + 1;
        } else {
          r := Ok(i);
          return;
        }
      } else {
        assert false;
      }
    }
    r := Err(Stalled);
  }

  /** A response with quota 0 costs exactly one backoff and one more request of the same URL. */
  lemma {:induction false} ZeroThenRetry(url: string, remaining: seq<int>)
    requires remaining != [] && remaining[0] == 0
    ensures QuotaOutcome(remaining) == match QuotaOutcome(remaining[1..])
      case Ok(k) => Ok(k + 1)
      case Err(f) => Err(f)
    ensures QuotaTrace(url, remaining) == [Get(url), Sleep(Backoff)] + QuotaTrace(url, remaining[1..])
  {
    var k := FirstNonZero(remaining[1..]);
    assert FirstNonZero(remaining) == k + 1;
    WaitsPrepend(url, k);
  }

  lemma {:induction false} WaitsPrepend(url: string, n: nat)
    ensures Waits(url, n + 1) == [Get(url), Sleep(Backoff)] + Waits(url, n)
  {
    if n > 0 {
      WaitsPrepend(url, n - 1);
    }
  }

  /** A first response with quota left is accepted at once, with no wait. */
  lemma AcceptedAtOnce(url: string, remaining: seq<int>)
    requires remaining != [] && remaining[0] > 0
    ensures QuotaOutcome(remaining) == Ok(0) && QuotaTrace(url, remaining) == [Get(url)]
  {
  }

  /** The rate-limited scenario: one exhausted response, one backoff, then success on the same URL. */
  lemma ZeroThenPositive(url: string, n: int)
    requires n > 0
    ensures QuotaOutcome([0, n]) == Ok(1)
    ensures QuotaTrace(url, [0, n]) == [Get(url), Sleep(Backoff), Get(url)]
  {
    assert [0, n][1..] == [n];
    ZeroThenRetry(url, [0, n]);
  }
}
