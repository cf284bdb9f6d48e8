/** The per-caller token bucket, over real time. */
module TokenBuckets {
  /** `created` is the bucket's first `last_refill`. */
  datatype Config = Config(capacity: real, rate: real, created: real)
  datatype Call = Call(now: real, amount: real)
  datatype Bucket = Bucket(tokens: real, last: real)

  /** What flows in between two moments. */
  function Inflow(c: Config, from: real, to: real): real { (to - from) * c.rate }

  function Refilled(c: Config, b: Bucket, now: real): Bucket {
    var tokens := b.tokens + Inflow(c, b.last, now);
    Bucket(if tokens < c.capacity then tokens else c.capacity, now)
  }

  predicate Grants(c: Config, b: Bucket, call: Call) { Refilled(c, b, call.now).tokens >= call.amount }

  function Taken(c: Config, b: Bucket, call: Call): Bucket {
    var r := Refilled(c, b, call.now);
    if Grants(c, b, call) then r.(tokens := r.tokens - call.amount) else r
  }

  /** The bucket after a history of calls; reading `available` is a call for nothing. */
  function Served(c: Config, calls: seq<Call>): Bucket {
    if calls == [] then Bucket(c.capacity, c.created)
    else Taken(c, Served(c, calls[..|calls| - 1]), calls[|calls| - 1])
  }

  /** What call `k` of the history was granted. */
  function GrantOf(c: Config, calls: seq<Call>, k: nat): real
    requires k < |calls|
  {
    if Grants(c, Served(c, calls[..k]), calls[k]) then calls[k].amount else 0.0
  }

  /** What the calls from `i` up to but not including `n` were granted together. */
  function Granted(c: Config, calls: seq<Call>, i: nat, n: nat): real
    requires i <= n <= |calls|
    decreases n
  {
    if i == n then 0.0 else Granted(c, calls, i, n - 1) + GrantOf(c, calls, n - 1)
  }

  function TimeOf(c: Config, calls: seq<Call>, i: nat): real
    requires i <= |calls|
  {
    if i == 0 then c.created else calls[i - 1].now
  }

  /** What the rule "at most capacity plus rate times elapsed, counted from start `i`" still allows at `now`. */
  function Allowance(c: Config, calls: seq<Call>, i: nat, now: real): real
    requires i <= |calls| + 1
  {
    if i == |calls| + 1 then c.capacity
    else c.capacity + Inflow(c, TimeOf(c, calls, i), now) - Granted(c, calls, if i == 0 then 0 else i - 1, |calls|)
  }

  // -- The bucket is the tightest such rule --------------------------------------------------------------------

  lemma {:induction false} GrantedOfPrefix(c: Config, calls: seq<Call>, m: nat, i: nat, n: nat)
    requires i <= n <= m <= |calls|
    ensures Granted(c, calls[..m], i, n) == Granted(c, calls, i, n)
    decreases n
  {
    if i < n {
      assert calls[..m][..n - 1] == calls[..n - 1];
      GrantedOfPrefix(c, calls, m, i, n - 1);
    }
  }

  lemma InflowSplits(c: Config, from: real, mid: real, to: real)
    ensures Inflow(c, from, mid) + Inflow(c, mid, to) == Inflow(c, from, to)
    ensures Inflow(c, mid, mid) == 0.0
    ensures mid <= to && c.rate >= 0.0 ==> Inflow(c, mid, to) >= 0.0
    ensures from <= mid && c.rate <= 0.0 ==> Inflow(c, from, mid) <= 0.0
  {
    var a, b := mid - from, to - mid;
    assert to - from == a + b;
    assert (a + b) * c.rate == a * c.rate + b * c.rate;
    if mid <= to && c.rate >= 0.0 { assert b * c.rate >= 0.0; }
    if from <= mid && c.rate <= 0.0 { assert a * (-c.rate) >= 0.0; }
  }

  /** One more call moves every allowance by what it granted and by the time that passed. */
  lemma AllowanceMoves(c: Config, calls: seq<Call>, i: nat, now: real)
    requires calls != [] && i <= |calls|
    ensures var n := |calls| - 1;
            var last := calls[n];
            var moved := Inflow(c, last.now, now) - GrantOf(c, calls, n);
            Allowance(c, calls, i, now) == Allowance(c, calls[..n], i, last.now) + moved
  {
    hide Inflow; hide Served; hide GrantOf;
    var n := |calls| - 1;
    var last := calls[n];
    var from := if i == 0 then 0 else i - 1;
    GrantedOfPrefix(c, calls, n, from, n);
    if i <= n {
      assert TimeOf(c, calls[..n], i) == TimeOf(c, calls, i);
      InflowSplits(c, TimeOf(c, calls, i), last.now, now);
    } else {
      assert Granted(c, calls, n, n) == 0.0;
      InflowSplits(c, last.now, last.now, now);
    }
  }

  /** The tokens at hand are the least of all allowances. */
  lemma {:induction false} TokensAreLeastAllowance(c: Config, calls: seq<Call>, now: real) returns (least: nat)
    ensures var tokens := Refilled(c, Served(c, calls), now).tokens;
            && least <= |calls| + 1 && tokens == Allowance(c, calls, least, now)
            && forall i: nat :: i <= |calls| + 1 ==> tokens <= Allowance(c, calls, i, now)
    decreases |calls|
  {
    hide Inflow; hide GrantOf;
    if calls == [] {
      assert Granted(c, [], 0, 0) == 0.0;
      least := if Allowance(c, [], 0, now) < c.capacity then 0 else 1;
      return;
    }
    var n := |calls| - 1;
    var last := calls[n];
    var earlier := TokensAreLeastAllowance(c, calls[..n], last.now);
    var left := Refilled(c, Served(c, calls[..n]), last.now).tokens;
    var tokens := Refilled(c, Served(c, calls), now).tokens;
    LeftAfter(c, calls, now);
    forall i: nat | i <= |calls| ensures tokens <= Allowance(c, calls, i, now) { AllowanceMoves(c, calls, i, now); }
    AllowanceMoves(c, calls, earlier, now);
    least := if tokens == c.capacity then |calls| + 1 else earlier;
  }

  lemma LeftAfter(c: Config, calls: seq<Call>, now: real)
    requires calls != []
    ensures var n := |calls| - 1;
            var tokens := Refilled(c, Served(c, calls[..n]), calls[n].now).tokens;
            var rest := tokens - GrantOf(c, calls, n) + Inflow(c, calls[n].now, now);
            Refilled(c, Served(c, calls), now).tokens == if rest < c.capacity then rest else c.capacity
  {
    hide Inflow;
  }

  /**
   * A call is granted if and only if, from every earlier start, the grants since then and this amount together stay
   * within capacity plus rate times elapsed.
   */
  lemma GrantedIffWithinEveryAllowance(c: Config, calls: seq<Call>, call: Call)
    ensures Grants(c, Served(c, calls), call) <==>
            forall i: nat :: i <= |calls| + 1 ==> call.amount <= Allowance(c, calls, i, call.now)
  {
    hide Allowance; hide Served;
    var least := TokensAreLeastAllowance(c, calls, call.now);
  }

  /** Every block of calls that ends in a grant is granted at most the capacity and what flowed in meanwhile. */
  lemma BlockIsBounded(c: Config, calls: seq<Call>, i: nat, j: nat)
    requires i <= j < |calls| && Grants(c, Served(c, calls[..j]), calls[j])
    ensures Granted(c, calls, i, j + 1) <= c.capacity + Inflow(c, calls[i].now, calls[j].now)
  {
    hide Inflow; hide Served; hide Grants;
    var before := calls[..j];
    GrantedIffWithinEveryAllowance(c, before, calls[j]);
    assert calls[j].amount <= Allowance(c, before, i + 1, calls[j].now);
    GrantedOfPrefix(c, calls, j, i, j);
    InflowSplits(c, calls[i].now, calls[i].now, calls[j].now);
    assert Granted(c, calls, i, j + 1) == Granted(c, calls, i, j) + calls[j].amount;
    if i == j { assert Granted(c, calls, i, j) == 0.0; }
  }

  predicate Monotone(calls: seq<Call>) { forall i, j :: 0 <= i < j < |calls| ==> calls[i].now <= calls[j].now }

  /** Over a clock that never runs back, every block whatever is so bounded. */
  lemma {:induction false} AnyBlockIsBounded(c: Config, calls: seq<Call>, i: nat, j: nat)
    requires i <= j < |calls| && Monotone(calls) && c.capacity >= 0.0 && c.rate >= 0.0
    ensures Granted(c, calls, i, j + 1) <= c.capacity + Inflow(c, calls[i].now, calls[j].now)
    decreases j
  {
    hide Inflow; hide Served; hide Grants;
    if Grants(c, Served(c, calls[..j]), calls[j]) {
      BlockIsBounded(c, calls, i, j);
    } else if i < j {
      AnyBlockIsBounded(c, calls, i, j - 1);
      assert calls[j - 1].now <= calls[j].now;
      InflowSplits(c, calls[i].now, calls[j - 1].now, calls[j].now);
    } else {
      assert Granted(c, calls, i, i + 1) == 0.0;
      InflowSplits(c, calls[i].now, calls[i].now, calls[i].now);
    }
  }

  /** Splitting a refill in two changes nothing. */
  lemma RefillSplits(c: Config, b: Bucket, mid: real, now: real)
    requires b.last <= mid <= now && b.tokens <= c.capacity
    ensures Refilled(c, Refilled(c, b, mid), now) == Refilled(c, b, now)
  {
    hide Inflow;
    InflowSplits(c, b.last, mid, now);
  }

  class TokenBucket {
    const config: Config
    var tokens: real
    var last: real
    ghost var calls: seq<Call>

    ghost predicate Valid() reads this { Bucket(tokens, last) == Served(config, calls) }

    constructor (config: Config)
      ensures Valid() && calls == [] && this.config == config
    {
      this.config := config;
      tokens, last := config.capacity, config.created;
      calls := [];
    }

    method Refill(now: real)
      modifies this`tokens, this`last
      ensures Bucket(tokens, last) == Refilled(config, old(Bucket(tokens, last)), now)
    {
      var filled := tokens + (now - last) * config.rate;
      tokens := if filled < config.capacity then filled else config.capacity;
      last := now;
    }

    method Consume(now: real, amount: real) returns (granted: bool)
      requires Valid()
      modifies this
      ensures Valid() && calls == old(calls) + [Call(now, amount)]
      ensures granted <==> forall i: nat :: i <= |old(calls)| + 1 ==> amount <= Allowance(config, old(calls), i, now)
    {
      hide Allowance; hide Inflow;
      GrantedIffWithinEveryAllowance(config, calls, Call(now, amount));
      ghost var was := calls;
      Refill(now);
      granted := tokens >= amount;
      if granted { tokens := tokens - amount; }
      calls := calls + [Call(now, amount)];
      assert calls[..|calls| - 1] == was;
    }

    /** Reading is a call for nothing. */
    method Available(now: real) returns (available: real)
      requires Valid()
      modifies this
      ensures Valid() && calls == old(calls) + [Call(now, 0.0)]
      ensures exists i: nat :: i <= |old(calls)| + 1 && available == Allowance(config, old(calls), i, now)
      ensures forall i: nat :: i <= |old(calls)| + 1 ==> available <= Allowance(config, old(calls), i, now)
    {
      ghost var least := TokensAreLeastAllowance(config, calls, now);
      ghost var was := calls;
      Refill(now);
      available := tokens;
      calls := calls + [Call(now, 0.0)];
      assert calls[..|calls| - 1] == was;
    }
  }
}
