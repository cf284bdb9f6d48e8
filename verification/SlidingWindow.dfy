/** The per-tool throttle: a queue of the moments of the last second's grants. */
module SlidingWindow {
  /** A grant, with the rate asked for at the time. */
  datatype Grant = Grant(at: real, qps: real)

  /** `Failed`: with a negative rate and an empty window there is no oldest grant to wait for. */
  datatype Answer = Unlimited | Granted | Wait(seconds: real) | Failed

  function Max(a: real, b: real): real { if a < b then b else a }

  predicate Ordered(grants: seq<Grant>) { forall i, j :: 0 <= i < j < |grants| ==> grants[i].at <= grants[j].at }

  /** The grants from `k` on are those of the last second before `now`. */
  predicate Recent(grants: seq<Grant>, k: nat, now: real) {
    && k <= |grants|
    && (forall i :: 0 <= i < k ==> now - grants[i].at >= 1.0)
    && (forall i :: k <= i < |grants| ==> now - grants[i].at < 1.0)
  }

  /** Each grant was made with fewer than `qps` grants in the second before it. */
  ghost predicate Throttled(grants: seq<Grant>) {
    forall i, j :: 0 <= i <= j < |grants| && grants[j].at - grants[i].at < 1.0 ==> (j - i) as real < grants[j].qps
  }

  function Ceiling(x: real): int { -(-x).Floor }

  function Within(grants: seq<Grant>, start: real): set<int> {
    set i: int | 0 <= i < |grants| && start <= grants[i].at < start + 1.0
  }

  lemma {:induction false} RangeSize(s: set<int>, low: int, high: int)
    requires low <= high && forall i :: i in s ==> low <= i < high
    ensures |s| <= high - low
    decreases high - low
  {
    if low == high {
      assert s == {};
    } else {
      RangeSize(s - {low}, low + 1, high);
    }
  }

  lemma {:induction false} Least(s: set<int>) returns (i: int)
    requires exists k :: k in s
    ensures i in s && forall k :: k in s ==> i <= k
    decreases |s|
  {
    var x :| x in s;
    i := x;
    if z :| z in s && z != x {
      assert z in s - {x};
      var y := Least(s - {x});
      assert forall k :: k in s ==> k == x || k in s - {x};
      i := if x < y then x else y;
    }
  }

  lemma {:induction false} Greatest(s: set<int>) returns (j: int)
    requires exists k :: k in s
    ensures j in s && forall k :: k in s ==> k <= j
    decreases |s|
  {
    var x :| x in s;
    j := x;
    if z :| z in s && z != x {
      assert z in s - {x};
      var y := Greatest(s - {x});
      assert forall k :: k in s ==> k == x || k in s - {x};
      j := if x > y then x else y;
    }
  }

  /** Any half-open interval of one second holds at most `qps` grants, rounded up. */
  lemma SecondIsBounded(grants: seq<Grant>, start: real, qps: real)
    requires Throttled(grants) && qps >= 0.0
    requires forall i :: i in Within(grants, start) ==> grants[i].qps <= qps
    ensures |Within(grants, start)| <= Ceiling(qps)
  {
    var s := Within(grants, start);
    if k :| k in s {
      var i := Least(s);
      var j := Greatest(s);
      assert (j - i) as real < grants[j].qps <= qps;
      RangeSize(s, i, j + 1);
    } else {
      assert s == {};
    }
  }

  lemma GrantKeepsThrottled(grants: seq<Grant>, k: nat, now: real, qps: real)
    requires Ordered(grants) && Throttled(grants) && Recent(grants, k, now)
    requires (|grants| - k) as real < qps
    requires forall i :: 0 <= i < |grants| ==> grants[i].at <= now
    ensures Ordered(grants + [Grant(now, qps)]) && Throttled(grants + [Grant(now, qps)])
  {
    var more := grants + [Grant(now, qps)];
    forall i, j | 0 <= i <= j < |more| && more[j].at - more[i].at < 1.0 ensures (j - i) as real < more[j].qps {
      if j == |grants| {
        assert i >= k;
        assert (j - i) as real <= (|grants| - k) as real;
      }
    }
  }

  /** `window` holds the last grants, all those within a second of the clock among them. */
  ghost predicate WindowOk(grants: seq<Grant>, window: seq<real>, clock: real) {
    && Ordered(grants) && Throttled(grants)
    && (forall i :: 0 <= i < |grants| ==> grants[i].at <= clock)
    && |window| <= |grants|
    && (forall i :: 0 <= i < |window| ==> window[i] == grants[|grants| - |window| + i].at)
    && (forall i :: 0 <= i < |grants| - |window| ==> clock - grants[i].at >= 1.0)
  }

  lemma PopKeepsWindow(grants: seq<Grant>, window: seq<real>, now: real)
    requires WindowOk(grants, window, now) && window != [] && now - window[0] >= 1.0
    ensures WindowOk(grants, window[1..], now)
  {
    hide Throttled; hide Ordered;
  }

  lemma TrimmedIsRecent(grants: seq<Grant>, window: seq<real>, now: real)
    requires WindowOk(grants, window, now) && (window == [] || now - window[0] < 1.0)
    ensures |window| <= |grants| && Recent(grants, |grants| - |window|, now)
  {
    var k := |grants| - |window|;
    if window != [] {
      assert window[0] == grants[k].at;
      assert forall i :: k < i < |grants| ==> grants[k].at <= grants[i].at;
    }
  }

  lemma PushKeepsWindow(grants: seq<Grant>, window: seq<real>, now: real, qps: real)
    requires WindowOk(grants, window, now) && (window == [] || now - window[0] < 1.0) && |window| as real < qps
    ensures WindowOk(grants + [Grant(now, qps)], window + [now], now)
  {
    TrimmedIsRecent(grants, window, now);
    GrantKeepsThrottled(grants, |grants| - |window|, now, qps);
    hide Throttled; hide Ordered;
  }

  class QpsLimiter {
    var window: seq<real>
    ghost var grants: seq<Grant>
    ghost var clock: real

    ghost predicate Valid() reads this { WindowOk(grants, window, clock) }

    constructor (now: real)
      ensures Valid() && grants == [] && clock == now
    {
      window, grants, clock := [], [], now;
    }

    /** One turn of `acquire` under the lock: afterwards the window is the grants of the last second. */
    method TryAcquire(now: real, qps: real) returns (answer: Answer)
      requires Valid() && clock <= now
      modifies this
      ensures Valid()
      ensures grants == if answer == Granted then old(grants) + [Grant(now, qps)] else old(grants)
      ensures answer == Unlimited <==> qps == 0.0
      ensures qps == 0.0 ==> window == old(window) && clock == old(clock)
      ensures qps != 0.0 ==>
                var k := |grants| - |window|;
                && clock == now && k >= 0
                && Recent(old(grants), k, now)
                && (answer == Granted <==> ((|old(grants)| - k) as real) < qps)
                && (answer == Failed <==> qps < 0.0 && window == [])
      ensures answer.Wait? ==> window != [] && answer.seconds == 1.0 - (now - window[0]) > 0.0
    {
      hide WindowOk; hide Recent;
      if qps == 0.0 { return Unlimited; }
      LaterKeepsWindow(grants, window, clock, now);
      clock := now;
      while window != [] && now - window[0] >= 1.0
        invariant clock == now && grants == old(grants) && Valid()
        decreases |window|
      {
        PopKeepsWindow(grants, window, now);
        window := window[1..];
      }
      TrimmedIsRecent(grants, window, now);
      if |window| as real < qps {
        PushKeepsWindow(grants, window, now, qps);
        window := window + [now];
        grants := grants + [Grant(now, qps)];
        return Granted;
      }
      if window == [] { return Failed; }
      return Wait(Max(0.0, 1.0 - (now - window[0])));
    }
  }

  lemma LaterKeepsWindow(grants: seq<Grant>, window: seq<real>, clock: real, now: real)
    requires WindowOk(grants, window, clock) && clock <= now
    ensures WindowOk(grants, window, now)
  {
    hide Throttled; hide Ordered;
  }

  /**
   * A refused call at a steady rate sleeps exactly as long as it must: a turn at `later`, with no grant in between, is
   * granted if and only if the sleep is over.
   */
  lemma WaitIsExact(grants: seq<Grant>, k: nat, now: real, later: real, kk: nat, qps: real)
    requires Ordered(grants) && Throttled(grants) && Recent(grants, k, now) && Recent(grants, kk, later)
    requires forall i :: 0 <= i < |grants| ==> grants[i].at <= now
    requires now <= later && k < |grants| && grants[|grants| - 1].qps == qps && ((|grants| - k) as real) >= qps
    ensures ((|grants| - kk) as real) < qps <==> later - now >= 1.0 - (now - grants[k].at)
  {
    var last := |grants| - 1;
    assert grants[last].at - grants[k].at < 1.0;
    assert ((last - k) as real) < qps;
    if later - grants[k].at < 1.0 {
      assert kk <= k;
    } else {
      assert kk > k;
      assert ((|grants| - kk) as real) <= ((last - k) as real);
    }
  }
}
