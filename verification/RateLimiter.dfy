/** The token bucket: what any run of passes can be granted, and when a wait is over. */
module RateLimiter {
  import opened Numbers

  datatype Bucket = Bucket(capacity: real, tokens: real, last: real)

  /** What elapsed time brings in. */
  type Income = real -> real

  function AtRate(rate: real): Income { (elapsed: real) => elapsed * rate }

  function Refilled(earn: Income, b: Bucket, now: real): Bucket {
    var accrued := earn(now - b.last);
    if accrued > 0.0 then b.(tokens := Min(b.capacity, b.tokens + accrued), last := now) else b
  }

  predicate Grants(earn: Income, b: Bucket, now: real) { Refilled(earn, b, now).tokens >= 1.0 }

  /** One turn of the loop: refill, then take a token if there is one. */
  function Passed(earn: Income, b: Bucket, now: real): Bucket {
    var r := Refilled(earn, b, now);
    if r.tokens >= 1.0 then r.(tokens := r.tokens - 1.0) else r
  }

  // ---------------------------------------------------------------- runs

  /** The bucket after the first `k` passes of a run. */
  function After(earn: Income, b: Bucket, times: seq<real>, k: nat): Bucket
    requires k <= |times|
  {
    if k == 0 then b else Passed(earn, After(earn, b, times, k - 1), times[k - 1])
  }

  predicate GrantedAt(earn: Income, b: Bucket, times: seq<real>, k: nat)
    requires k < |times|
  {
    Grants(earn, After(earn, b, times, k), times[k])
  }

  predicate Clocked(b: Bucket, times: seq<real>) {
    && (forall i :: 0 <= i < |times| ==> b.last <= times[i])
    && (forall i, j :: 0 <= i <= j < |times| ==> times[i] <= times[j])
  }

  predicate Fits(b: Bucket) { 0.0 <= b.tokens <= b.capacity }

  predicate AddsUp(earn: Income, a: real, b: real) { earn(a) + earn(b) == earn(a + b) }

  /** Income adds up over time, and time brings something in, or never does. */
  ghost predicate Steady(earn: Income) {
    && (forall a: real, b: real :: AddsUp(earn, a, b))
    && (|| (forall e: real :: e > 0.0 ==> earn(e) > 0.0)
        || (forall e: real :: e >= 0.0 ==> earn(e) <= 0.0))
  }

  function Gain(earn: Income, span: real): real { if earn(span) > 0.0 then earn(span) else 0.0 }

  lemma RateIsSteady(rate: real)
    ensures Steady(AtRate(rate))
  {
    forall a: real, b: real ensures AddsUp(AtRate(rate), a, b) { Distributes(rate, a, b); }
    if rate > 0.0 {
      forall e: real | e > 0.0 ensures AtRate(rate)(e) > 0.0 { PositiveProduct(e, rate); }
    } else {
      forall e: real | e >= 0.0 ensures AtRate(rate)(e) <= 0.0 { NonPositiveProduct(e, rate); }
    }
  }

  lemma Distributes(rate: real, a: real, b: real)
    ensures a * rate + b * rate == (a + b) * rate
  {
  }

  lemma PositiveProduct(a: real, b: real)
    requires a > 0.0 && b > 0.0
    ensures a * b > 0.0
  {
  }

  lemma NonPositiveProduct(a: real, b: real)
    requires a >= 0.0 && b <= 0.0
    ensures a * b <= 0.0
  {
  }

  /** A pass keeps the tokens in range and adds at most what the elapsed time earned. */
  lemma PassKeeps(earn: Income, b: Bucket, now: real)
    requires Steady(earn) && Fits(b) && b.last <= now
    ensures var p := Passed(earn, b, now);
      && Fits(p) && p.capacity == b.capacity && p.last <= now && (earn(now - b.last) > 0.0 ==> p.last == now)
      && p.tokens + (if Grants(earn, b, now) then 1.0 else 0.0) <= b.capacity
      && p.tokens + (if Grants(earn, b, now) then 1.0 else 0.0) <= b.tokens + Gain(earn, now - b.last)
  {
  }

  lemma {:induction false} RunKeeps(earn: Income, b: Bucket, times: seq<real>, k: nat)
    requires k <= |times| && Steady(earn) && Fits(b) && Clocked(b, times)
    ensures var a := After(earn, b, times, k);
      Fits(a) && a.capacity == b.capacity && a.last <= (if k == 0 then b.last else times[k - 1])
  {
    if k > 0 {
      RunKeeps(earn, b, times, k - 1);
      PassKeeps(earn, After(earn, b, times, k - 1), times[k - 1]);
    }
  }

  lemma ZeroEarnsZero(earn: Income)
    requires Steady(earn)
    ensures earn(0.0) == 0.0
  {
    assert AddsUp(earn, 0.0, 0.0);
  }

  /** Either no time ever earns anything, or the bucket's clock is that of its last pass. */
  lemma ClockFollows(earn: Income, b: Bucket, times: seq<real>, k: nat)
    requires 0 < k <= |times| && Steady(earn) && Fits(b) && Clocked(b, times)
    ensures After(earn, b, times, k).last == times[k - 1] || forall e: real :: e >= 0.0 ==> earn(e) <= 0.0
  {
    RunKeeps(earn, b, times, k - 1);
    var before := After(earn, b, times, k - 1);
    PassKeeps(earn, before, times[k - 1]);
  }

  lemma PassAdds(earn: Income, b: Bucket, times: seq<real>, k: nat)
    requires 0 < k < |times| && Steady(earn) && Fits(b) && Clocked(b, times)
    ensures After(earn, b, times, k + 1).tokens + (if GrantedAt(earn, b, times, k) then 1.0 else 0.0)
      <= After(earn, b, times, k).tokens + Gain(earn, times[k] - times[k - 1])
  {
    RunKeeps(earn, b, times, k);
    ClockFollows(earn, b, times, k);
    PassKeeps(earn, After(earn, b, times, k), times[k]);
  }

  lemma PassTakes(earn: Income, b: Bucket, times: seq<real>, k: nat)
    requires k < |times| && Steady(earn) && Fits(b) && Clocked(b, times)
    ensures After(earn, b, times, k + 1).tokens + (if GrantedAt(earn, b, times, k) then 1.0 else 0.0) <= b.capacity
  {
    RunKeeps(earn, b, times, k);
    PassKeeps(earn, After(earn, b, times, k), times[k]);
  }

  lemma GainsAdd(earn: Income, from: real, middle: real, to: real)
    requires Steady(earn) && from <= middle <= to
    ensures Gain(earn, middle - from) + Gain(earn, to - middle) == Gain(earn, to - from)
  {
    ZeroEarnsZero(earn);
    assert AddsUp(earn, middle - from, to - middle);
    assert (middle - from) + (to - middle) == to - from;
  }

  function Total(ones: seq<nat>, i: nat, j: nat): nat
    requires i <= j <= |ones|
  {
    if i == j then 0 else Total(ones, i, j - 1) + ones[j - 1]
  }

  function Bits(earn: Income, b: Bucket, times: seq<real>): seq<nat> {
    seq(|times|, k requires 0 <= k < |times| => if GrantedAt(earn, b, times, k) then 1 else 0)
  }

  function Lefts(earn: Income, b: Bucket, times: seq<real>): seq<real> {
    seq(|times| + 1, k requires 0 <= k <= |times| => After(earn, b, times, k).tokens)
  }

  /** How many of the passes from `i` up to `j` are granted. */
  function Granted(earn: Income, b: Bucket, times: seq<real>, i: nat, j: nat): nat
    requires i <= j <= |times|
  {
    Total(Bits(earn, b, times), i, j)
  }

  /** A step spends no more than was left and what the time since the last one earned. */
  predicate PaysAt(earn: Income, times: seq<real>, left: seq<real>, ones: seq<nat>, k: nat)
    requires 0 < k < |times| && |ones| == |times| && |left| == |times| + 1
  {
    left[k + 1] + ones[k] as real <= left[k] + Gain(earn, times[k] - times[k - 1])
  }

  /** If no step spends more than was left and what the time since the last one earned, a
      stretch of steps spends no more than its reserve and what its time earned. */
  lemma {:induction false} Telescopes(earn: Income, times: seq<real>, left: seq<real>, ones: seq<nat>, reserve: real,
                                      i: nat, j: nat)
    requires i < j <= |times| && |ones| == |times| && |left| == |times| + 1 && Steady(earn)
    requires forall x, y :: 0 <= x <= y < |times| ==> times[x] <= times[y]
    requires left[i + 1] + ones[i] as real <= reserve
    requires forall k :: 0 < k < |times| ==> PaysAt(earn, times, left, ones, k)
    ensures Total(ones, i, j) as real + left[j] <= reserve + Gain(earn, times[j - 1] - times[i])
  {
    if i == j - 1 {
      assert Total(ones, i, j) == Total(ones, i, i) + ones[i];
    } else {
      Telescopes(earn, times, left, ones, reserve, i, j - 1);
      GainsAdd(earn, times[i], times[j - 2], times[j - 1]);
      assert PaysAt(earn, times, left, ones, j - 1);
    }
  }

  lemma EntriesAt(earn: Income, b: Bucket, times: seq<real>, k: nat)
    requires k < |times|
    ensures Lefts(earn, b, times)[k + 1] == After(earn, b, times, k + 1).tokens
      && Lefts(earn, b, times)[k] == After(earn, b, times, k).tokens
    ensures Bits(earn, b, times)[k] as real == if GrantedAt(earn, b, times, k) then 1.0 else 0.0
  {
  }

  lemma FirstPassPays(earn: Income, b: Bucket, times: seq<real>, k: nat)
    requires k < |times| && Steady(earn) && Fits(b) && Clocked(b, times)
    ensures Lefts(earn, b, times)[k + 1] + Bits(earn, b, times)[k] as real <= b.capacity
  {
    PassTakes(earn, b, times, k);
    EntriesAt(earn, b, times, k);
  }

  lemma EachPassPays(earn: Income, b: Bucket, times: seq<real>, k: nat)
    requires 0 < k < |times| && Steady(earn) && Fits(b) && Clocked(b, times)
    ensures Lefts(earn, b, times)[k + 1] + Bits(earn, b, times)[k] as real
      <= Lefts(earn, b, times)[k] + Gain(earn, times[k] - times[k - 1])
  {
    PassAdds(earn, b, times, k);
    EntriesAt(earn, b, times, k);
  }

  lemma LeftIsInRange(earn: Income, b: Bucket, times: seq<real>, k: nat)
    requires k <= |times| && Steady(earn) && Fits(b) && Clocked(b, times)
    ensures 0.0 <= Lefts(earn, b, times)[k] <= b.capacity
  {
    RunKeeps(earn, b, times, k);
  }

  lemma GrantedWithin(earn: Income, b: Bucket, times: seq<real>, i: nat, j: nat)
    requires i < j <= |times| && Steady(earn) && Fits(b) && Clocked(b, times)
    ensures Granted(earn, b, times, i, j) as real <= b.capacity + Gain(earn, times[j - 1] - times[i])
  {
    var left, ones := Lefts(earn, b, times), Bits(earn, b, times);
    FirstPassPays(earn, b, times, i);
    forall k | 0 < k < |times| ensures PaysAt(earn, times, left, ones, k) {
      EachPassPays(earn, b, times, k);
    }
    LeftIsInRange(earn, b, times, j);
    Telescopes(earn, times, left, ones, b.capacity, i, j);
  }

  /** The tokens stay between zero and the capacity in every run. */
  lemma TokensStayInRange(rate: real, b: Bucket, times: seq<real>, k: nat)
    requires k <= |times| && Fits(b) && Clocked(b, times)
    ensures Fits(After(AtRate(rate), b, times, k))
  {
    RateIsSteady(rate);
    RunKeeps(AtRate(rate), b, times, k);
  }

  /** What a span of time brings in, at a rate that may be no rate at all. */
  function Earned(rate: real, span: real): real { if rate > 0.0 then span * rate else 0.0 }

  /** In every run any stretch of passes is granted at most the capacity plus the rate times
      the time it spans. */
  lemma GrantsAreBounded(rate: real, b: Bucket, times: seq<real>, i: nat, j: nat)
    requires i < j <= |times| && Fits(b) && Clocked(b, times)
    ensures Granted(AtRate(rate), b, times, i, j) as real <= b.capacity + Earned(rate, times[j - 1] - times[i])
  {
    GrantedAtRate(rate, b, times, i, j);
    GainIsProduct(rate, times[j - 1] - times[i]);
  }

  lemma GrantedAtRate(rate: real, b: Bucket, times: seq<real>, i: nat, j: nat)
    requires i < j <= |times| && Fits(b) && Clocked(b, times)
    ensures Granted(AtRate(rate), b, times, i, j) as real <= b.capacity + Gain(AtRate(rate), times[j - 1] - times[i])
  {
    RateIsSteady(rate);
    GrantedWithin(AtRate(rate), b, times, i, j);
  }

  lemma GainIsProduct(rate: real, span: real)
    requires span >= 0.0
    ensures Gain(AtRate(rate), span) == Earned(rate, span)
  {
    if rate > 0.0 && span > 0.0 { PositiveProduct(span, rate); }
    if rate <= 0.0 { NonPositiveProduct(span, rate); }
  }

  /** With room for less than one token no pass of any run is ever granted. */
  lemma {:induction false} BelowOneNeverGrants(earn: Income, b: Bucket, times: seq<real>, k: nat)
    requires k < |times| && b.tokens <= b.capacity < 1.0
    ensures !GrantedAt(earn, b, times, k)
    ensures After(earn, b, times, k).tokens <= b.capacity && After(earn, b, times, k).capacity == b.capacity
  {
    if k > 0 { BelowOneNeverGrants(earn, b, times, k - 1); }
  }

  // ---------------------------------------------------------------- waiting

  function Wait(rate: real, b: Bucket): real
    requires rate != 0.0
  {
    (1.0 - b.tokens) / rate
  }

  function Scaled(x: real, rate: real): real { x * rate }

  lemma ProductOrder(rate: real, x: real, y: real)
    requires rate > 0.0
    ensures x <= y <==> Scaled(x, rate) <= Scaled(y, rate)
  {
    if x < y { PositiveProduct(y - x, rate); }
    if x > y { PositiveProduct(x - y, rate); }
    Distributes(rate, y - x, x);
  }

  lemma WaitEarnsTheRest(rate: real, b: Bucket)
    requires rate > 0.0
    ensures Scaled(Wait(rate, b), rate) == 1.0 - b.tokens
  {
  }

  lemma GrantsIff(rate: real, b: Bucket, now: real)
    requires b.tokens < 1.0 <= b.capacity
    ensures Grants(AtRate(rate), b, now) <==> Scaled(now - b.last, rate) >= 1.0 - b.tokens
  {
  }

  lemma RefusedKeepsTime(rate: real, b: Bucket, now: real)
    requires rate > 0.0 && b.last <= now && !Grants(AtRate(rate), b, now)
    ensures Passed(AtRate(rate), b, now).last == now && Passed(AtRate(rate), b, now).tokens < 1.0
    ensures Passed(AtRate(rate), b, now).capacity == b.capacity
  {
    if b.last < now { PositiveProduct(now - b.last, rate); }
  }

  /** After a refused pass the next one is granted exactly when the computed wait is over. */
  lemma WaitIsExact(rate: real, b: Bucket, now: real, next: real)
    requires rate > 0.0 && b.capacity >= 1.0 && b.last <= now <= next && !Grants(AtRate(rate), b, now)
    ensures Grants(AtRate(rate), Passed(AtRate(rate), b, now), next) <==>
      next >= now + Wait(rate, Passed(AtRate(rate), b, now))
  {
    RefusedKeepsTime(rate, b, now);
    WaitFrom(rate, Passed(AtRate(rate), b, now), next);
  }

  lemma WaitFrom(rate: real, p: Bucket, next: real)
    requires rate > 0.0 && p.tokens < 1.0 <= p.capacity
    ensures Grants(AtRate(rate), p, next) <==> next >= p.last + Wait(rate, p)
  {
    GrantsIff(rate, p, next);
    WaitEarnsTheRest(rate, p);
    ProductOrder(rate, Wait(rate, p), next - p.last);
  }

  lemma WaitIsLong(rate: real, b: Bucket)
    requires rate > 0.0 && b.tokens < 1.0
    ensures Wait(rate, b) > 0.0
  {
    WaitEarnsTheRest(rate, b);
    ProductOrder(rate, Wait(rate, b), 0.0);
  }

  /** With a rate that is not positive nothing ever comes back. */
  lemma NoIncome(rate: real, b: Bucket, now: real)
    requires rate <= 0.0 && b.last <= now
    ensures Refilled(AtRate(rate), b, now) == b
  {
    NonPositiveProduct(now - b.last, rate);
  }

  /** Without income the bucket stays as it is until its tokens are spent. */
  lemma {:induction false} NoIncomeNeverGrants(rate: real, b: Bucket, times: seq<real>, k: nat)
    requires k < |times| && rate <= 0.0 && b.tokens < 1.0 && Clocked(b, times)
    ensures !GrantedAt(AtRate(rate), b, times, k) && After(AtRate(rate), b, times, k) == b
  {
    if k > 0 {
      NoIncomeNeverGrants(rate, b, times, k - 1);
      NoIncome(rate, b, times[k - 1]);
    }
    NoIncome(rate, b, times[k]);
  }

  /** Whether an acquisition can ever return. */
  predicate CanReturn(rate: real, b: Bucket) { b.capacity >= 1.0 && (rate > 0.0 || b.tokens >= 1.0) }

  /** A run whose first sleep lasts at least the computed wait is granted a pass exactly when
      there is room for a token and either income or a token to begin with; if it is granted
      one at all, then by its second pass, and at its first where there is no income. */
  lemma AcquireReturnsIff(rate: real, b: Bucket, times: seq<real>)
    requires b.tokens <= b.capacity && Clocked(b, times) && |times| >= 2
    requires rate != 0.0 ==> times[1] >= times[0] + Wait(rate, After(AtRate(rate), b, times, 1))
    ensures CanReturn(rate, b) ==> GrantedAt(AtRate(rate), b, times, 0) || GrantedAt(AtRate(rate), b, times, 1)
    ensures rate <= 0.0 ==> (GrantedAt(AtRate(rate), b, times, 0) <==> CanReturn(rate, b))
    ensures (exists k :: 0 <= k < |times| && GrantedAt(AtRate(rate), b, times, k)) <==> CanReturn(rate, b)
  {
    if b.capacity < 1.0 {
      forall k | 0 <= k < |times| ensures !GrantedAt(AtRate(rate), b, times, k) {
        BelowOneNeverGrants(AtRate(rate), b, times, k);
      }
    } else if rate > 0.0 {
      SecondPassGrants(rate, b, times);
    } else if b.tokens >= 1.0 {
      NoIncome(rate, b, times[0]);
      assert GrantedAt(AtRate(rate), b, times, 0);
    } else {
      forall k | 0 <= k < |times| ensures !GrantedAt(AtRate(rate), b, times, k) {
        NoIncomeNeverGrants(rate, b, times, k);
      }
    }
  }

  lemma SecondPassGrants(rate: real, b: Bucket, times: seq<real>)
    requires rate > 0.0 && b.capacity >= 1.0 && Clocked(b, times) && |times| >= 2
    requires times[1] >= times[0] + Wait(rate, After(AtRate(rate), b, times, 1))
    ensures GrantedAt(AtRate(rate), b, times, 0) || GrantedAt(AtRate(rate), b, times, 1)
  {
    assert After(AtRate(rate), b, times, 0) == b
      && After(AtRate(rate), b, times, 1) == Passed(AtRate(rate), b, times[0]);
    if !GrantedAt(AtRate(rate), b, times, 0) { WaitIsExact(rate, b, times[0], times[1]); }
  }

  /** A refused pass leaves it open whether the acquisition can return. */
  lemma RefusedKeepsHope(rate: real, b: Bucket, now: real)
    requires b.last <= now && b.tokens <= b.capacity && !Grants(AtRate(rate), b, now)
    ensures CanReturn(rate, Passed(AtRate(rate), b, now)) <==> CanReturn(rate, b)
  {
    if rate <= 0.0 { NoIncome(rate, b, now); }
  }

  /** A granted pass is one that can be. */
  lemma GrantedCanReturn(rate: real, b: Bucket, now: real)
    requires b.last <= now && b.tokens <= b.capacity && Grants(AtRate(rate), b, now)
    ensures CanReturn(rate, b)
  {
    if rate <= 0.0 { NoIncome(rate, b, now); }
  }

  /** A sleep is never shorter than no time at all. */
  function Sleep(rate: real, b: Bucket): real
    requires rate != 0.0
  {
    Max(Wait(rate, b), 0.0)
  }

  // ---------------------------------------------------------------- the object

  /** How an acquisition ends, or that it has not yet. */
  datatype Acquisition = Granted(at: real) | DividedByZero | Waiting

  class TokenBucketRateLimiter {
    const rate: real
    const capacity: real
    var tokens: real
    var lastRefill: real

    constructor (rate: real, capacity: real, now: real)
      ensures this.rate == rate && View() == Bucket(capacity, capacity, now)
    {
      this.rate, this.capacity, tokens, lastRefill := rate, capacity, capacity, now;
    }

    function View(): Bucket
      reads this
    {
      Bucket(capacity, tokens, lastRefill)
    }

    method Refill(now: real)
      modifies this
      ensures View() == Refilled(AtRate(rate), old(View()), now)
    {
      var elapsed := now - lastRefill;
      var newTokens := elapsed * rate;
      if newTokens > 0.0 {
        tokens := Min(capacity, tokens + newTokens);
        lastRefill := now;
      }
    }

    /** Loops until a token is taken, dividing by the rate after every refused pass; it is
        followed for as many sleeps as there are delays, each lasting the computed wait and
        its delay more.  Where it can return at all one sleep is enough. */
    method Acquire(start: real, delays: seq<real>) returns (r: Acquisition, passes: nat)
      requires tokens <= capacity && lastRefill <= start && forall i :: 0 <= i < |delays| ==> delays[i] >= 0.0
      modifies this
      ensures tokens <= capacity && (Fits(old(View())) ==> Fits(View()))
      ensures Grants(AtRate(rate), old(View()), start) ==>
        passes == 1 && r == Granted(start) && View() == Passed(AtRate(rate), old(View()), start)
      ensures !Grants(AtRate(rate), old(View()), start) ==>
        var b := Passed(AtRate(rate), old(View()), start);
        && (rate == 0.0 ==> passes == 1 && r == DividedByZero && View() == b)
        && (rate != 0.0 && delays == [] ==> passes == 1 && r == Waiting && View() == b)
        && (rate != 0.0 && delays != [] && CanReturn(rate, old(View())) ==>
              && passes == 2 && r == Granted(start + Wait(rate, b) + delays[0])
              && View() == Passed(AtRate(rate), b, start + Wait(rate, b) + delays[0]))
        && (rate != 0.0 && !CanReturn(rate, old(View())) ==> passes == |delays| + 1 && r == Waiting)
      ensures r.Granted? <==>
        CanReturn(rate, old(View())) && (Grants(AtRate(rate), old(View()), start) || (rate != 0.0 && delays != []))
    {
      ghost var b := View();
      var now := start;
      passes := 0;
      while true
        invariant passes <= |delays| && tokens <= capacity && lastRefill <= now
        invariant (CanReturn(rate, View()) <==> CanReturn(rate, b)) && (Fits(b) ==> Fits(View()))
        invariant passes == 0 ==> View() == b && now == start
        invariant passes > 0 ==> rate != 0.0 && !Grants(AtRate(rate), b, start)
        invariant passes == 1 ==> Asleep(b, start, delays, now)
        invariant passes > 1 ==> !CanReturn(rate, b)
        decreases |delays| - passes
      {
        ghost var before := View();
        if passes == 1 && CanReturn(rate, b) { SecondPass(rate, b, start, now); }
        Refill(now);
        passes := passes + 1;
        if tokens >= 1.0 {
          GrantedCanReturn(rate, before, now);
          tokens := tokens - 1.0;
          return Granted(now), passes;
        }
        RefusedKeepsHope(rate, before, now);
        if rate == 0.0 { return DividedByZero, passes; }
        if passes > |delays| { return Waiting, passes; }
        now := now + Sleep(rate, View()) + delays[passes - 1];
        if passes == 1 && CanReturn(rate, b) { WaitIsLong(rate, View()); }
      }
    }

    /** The first pass was refused, and the sleep after it is over. */
    predicate Asleep(b: Bucket, start: real, delays: seq<real>, now: real)
      reads this
    {
      && View() == Passed(AtRate(rate), b, start) && rate != 0.0 && delays != []
      && now == start + Sleep(rate, View()) + delays[0]
      && (CanReturn(rate, b) ==> now == start + Wait(rate, View()) + delays[0])
    }
  }

  lemma SecondPass(rate: real, b: Bucket, start: real, now: real)
    requires b.tokens <= b.capacity && b.last <= start && !Grants(AtRate(rate), b, start) && CanReturn(rate, b)
    requires rate != 0.0 && now >= start + Wait(rate, Passed(AtRate(rate), b, start)) && now >= start
    ensures Grants(AtRate(rate), Passed(AtRate(rate), b, start), now)
  {
    if rate <= 0.0 {
      NoIncome(rate, b, start);
      assert false;
    } else {
      WaitIsExact(rate, b, start, now);
    }
  }
}
