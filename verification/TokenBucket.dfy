/** The token bucket of crates/net, over exact reals, and the window bound it is equivalent to. */
module TokenBucket {

  /** A bucket's capacity, and what it earns in a length of time. */
  datatype Rates = Rates(burst: real, earn: real -> real)

  function PerSecond(ratePerSec: nat, burst: nat): Rates {
    Rates(burst as real, (elapsed: real) => elapsed * (ratePerSec as real))
  }

  /** Earnings add up over time and are never negative: all the window bound needs of the rate. */
  ghost predicate Steady(r: Rates) {
    r.burst >= 0.0 && forall a, b :: EarnsTogether(r, a, b)
  }

  ghost predicate EarnsTogether(r: Rates, a: real, b: real) {
    a >= 0.0 && b >= 0.0 ==> r.earn(a + b) == r.earn(a) + r.earn(b) && r.earn(a) >= 0.0 && r.earn(b) >= 0.0
  }

  lemma PerSecondIsSteady(ratePerSec: nat, burst: nat)
    ensures Steady(PerSecond(ratePerSec, burst))
  {
    var r, rate := PerSecond(ratePerSec, burst), ratePerSec as real;
    forall a: real, b: real
      ensures EarnsTogether(r, a, b)
    {
      assert r.earn(a + b) == (a + b) * rate && r.earn(a) == a * rate && r.earn(b) == b * rate;
      assert (a + b) * rate == a * rate + b * rate;
    }
  }

  /** One call, and what it was answered. */
  datatype Call = Call(at: real, cost: real, granted: bool)

  // ------------------------------------------------------------ what a bucket holds

  function LastInstant(created: real, calls: seq<Call>): real {
    if calls == [] then created else calls[|calls| - 1].at
  }

  /** Time never runs backwards: an earlier instant counts as no time at all. */
  function Elapsed(from: real, to: real): real {
    if to > from then to - from else 0.0
  }

  function Refilled(r: Rates, available: real, elapsed: real): real {
    var more := available + r.earn(elapsed);
    if more < r.burst then more else r.burst
  }

  function Price(c: Call): real {
    if c.granted then c.cost else 0.0
  }

  /** What the bucket holds after its last call. */
  function Balance(r: Rates, created: real, calls: seq<Call>): real
    decreases |calls|
  {
    if calls == [] then r.burst
    else
      var before, c := calls[..|calls| - 1], calls[|calls| - 1];
      Refilled(r, Balance(r, created, before), Elapsed(LastInstant(created, before), c.at)) - Price(c)
  }

  /** What it holds once refilled at a later instant. */
  function Level(r: Rates, created: real, calls: seq<Call>, now: real): real {
    Refilled(r, Balance(r, created, calls), Elapsed(LastInstant(created, calls), now))
  }

  // -------------------------------------------------------------- the window bound

  /** The cost granted by the calls from an index on. */
  function Spent(calls: seq<Call>, from: nat): real
    decreases |calls|
  {
    if from >= |calls| then 0.0
    else
      var last := calls[|calls| - 1];
      Spent(calls[..|calls| - 1], from) + if last.granted then last.cost else 0.0
  }

  /** What may still be granted now in view of the refill at one instant: of call k, or of the
      bucket's creation if there is no such call. */
  function Allowance(r: Rates, start: real, calls: seq<Call>, k: nat, now: real): real {
    r.burst + r.earn(now - start) - Spent(calls, k)
  }

  function CallAllowance(r: Rates, calls: seq<Call>, k: nat, now: real): real
    requires k < |calls|
  {
    Allowance(r, calls[k].at, calls, k, now)
  }

  /** The cost fits every window that ends now: from the present refill, from each earlier call's,
      and from the creation. */
  ghost predicate FitsEveryWindow(r: Rates, created: real, calls: seq<Call>, now: real, cost: real) {
    && cost <= r.burst
    && (forall k :: 0 <= k < |calls| ==> cost <= CallAllowance(r, calls, k, now))
    && cost <= Allowance(r, created, calls, 0, now)
  }

  /** The instants never decrease, from the creation through every call to the present. */
  predicate Ordered(created: real, calls: seq<Call>, now: real)
    decreases |calls|
  {
    && LastInstant(created, calls) <= now
    && (calls != [] ==> Ordered(created, calls[..|calls| - 1], calls[|calls| - 1].at))
  }

  lemma {:induction false} OrderedAt(created: real, calls: seq<Call>, now: real, k: nat)
    requires Ordered(created, calls, now) && k <= |calls|
    ensures created <= now
    ensures k < |calls| ==> created <= calls[k].at <= now
    decreases |calls|
  {
    if calls != [] {
      var n := |calls| - 1;
      OrderedAt(created, calls[..n], calls[n].at, if k < n then k else n);
    }
  }

  lemma AllowanceGrows(r: Rates, start: real, before: seq<Call>, c: Call, k: nat, now: real)
    requires Steady(r) && k <= |before| && start <= c.at <= now
    ensures Allowance(r, start, before + [c], k, now)
         == Allowance(r, start, before, k, c.at) - Price(c) + r.earn(now - c.at)
  {
    assert (before + [c])[..|before|] == before;
    assert EarnsTogether(r, c.at - start, now - c.at);
    assert (c.at - start) + (now - c.at) == now - start;
  }

  /** The window that begins with the last call. */
  lemma OwnWindow(r: Rates, before: seq<Call>, c: Call, now: real)
    ensures CallAllowance(r, before + [c], |before|, now) == r.burst + r.earn(now - c.at) - Price(c)
  {
    assert (before + [c])[..|before|] == before;
    assert Spent(before, |before|) == 0.0;
  }

  /** The bucket's level is within every window. */
  lemma {:induction false} LevelWithinWindows(r: Rates, created: real, calls: seq<Call>, now: real)
    requires Steady(r) && Ordered(created, calls, now)
    ensures FitsEveryWindow(r, created, calls, now, Level(r, created, calls, now))
    decreases |calls|
  {
    if calls == [] {
      assert EarnsTogether(r, now - created, 0.0);
    } else {
      var n := |calls| - 1;
      var before, c := calls[..n], calls[n];
      assert calls == before + [c];
      OrderedAt(created, before, c.at, 0);
      LevelWithinWindows(r, created, before, c.at);
      LevelAfterCall(r, created, before, c, now);
      AllowanceGrows(r, created, before, c, 0, now);
      forall k | 0 <= k < |calls|
        ensures Level(r, created, calls, now) <= CallAllowance(r, calls, k, now)
      {
        if k < n {
          OrderedAt(created, before, c.at, k);
          AllowanceGrows(r, calls[k].at, before, c, k, now);
          assert Level(r, created, before, c.at) <= CallAllowance(r, before, k, c.at);
        } else {
          OwnWindow(r, before, c, now);
        }
      }
    }
  }

  lemma LevelAfterCall(r: Rates, created: real, before: seq<Call>, c: Call, now: real)
    requires c.at <= now
    ensures var more := Level(r, created, before, c.at) - Price(c) + r.earn(now - c.at);
            Level(r, created, before + [c], now) == if more < r.burst then more else r.burst
  {
    assert (before + [c])[..|before|] == before;
    assert Elapsed(c.at, now) == now - c.at;
  }

  /** And whatever is within every window is within the bucket's level. */
  lemma {:induction false} WindowsWithinLevel(r: Rates, created: real, calls: seq<Call>, now: real, cost: real)
    requires Steady(r) && Ordered(created, calls, now) && FitsEveryWindow(r, created, calls, now, cost)
    ensures cost <= Level(r, created, calls, now)
    decreases |calls|
  {
    if calls == [] {
      assert EarnsTogether(r, now - created, 0.0);
    } else {
      var n := |calls| - 1;
      var before, c := calls[..n], calls[n];
      assert calls == before + [c];
      var earlier := cost + Price(c) - r.earn(now - c.at);
      OrderedAt(created, before, c.at, 0);
      AllowanceGrows(r, created, before, c, 0, now);
      OwnWindow(r, before, c, now);
      assert cost <= CallAllowance(r, calls, n, now);
      forall k | 0 <= k < |before|
        ensures earlier <= CallAllowance(r, before, k, c.at)
      {
        OrderedAt(created, before, c.at, k);
        AllowanceGrows(r, before[k].at, before, c, k, now);
        assert cost <= CallAllowance(r, calls, k, now);
      }
      WindowsWithinLevel(r, created, before, c.at, earlier);
      LevelAfterCall(r, created, before, c, now);
    }
  }

  /** The answers recorded are the bucket's own. */
  ghost predicate IsRecord(r: Rates, created: real, calls: seq<Call>) {
    forall i :: 0 <= i < |calls| ==> AnsweredRight(r, created, calls, i)
  }

  ghost predicate AnsweredRight(r: Rates, created: real, calls: seq<Call>, i: nat)
    requires i < |calls|
  {
    calls[i].granted <==> Level(r, created, calls[..i], calls[i].at) >= calls[i].cost
  }

  /** A granted call fits the window from any call up to itself. */
  lemma GrantFitsWindow(r: Rates, created: real, before: seq<Call>, c: Call, i: nat, start: real)
    requires Steady(r) && Ordered(created, before, c.at) && i <= |before|
    requires start == if i < |before| then before[i].at else c.at
    requires Level(r, created, before, c.at) >= Price(c)
    ensures Spent(before, i) + Price(c) <= r.burst + r.earn(c.at - start)
  {
    LevelWithinWindows(r, created, before, c.at);
    if i < |before| {
      assert Level(r, created, before, c.at) <= CallAllowance(r, before, i, c.at);
    } else {
      EarningsGrow(r, 0.0, 0.0);
    }
  }

  lemma SpentGrows(before: seq<Call>, c: Call, i: nat)
    requires i <= |before|
    ensures Spent(before + [c], i) == Spent(before, i) + Price(c)
  {
    assert (before + [c])[..|before|] == before;
  }

  lemma EarningsGrow(r: Rates, a: real, b: real)
    requires Steady(r) && 0.0 <= a <= b
    ensures 0.0 <= r.earn(a) <= r.earn(b)
  {
    assert EarnsTogether(r, a, b - a);
    assert a + (b - a) == b;
  }

  /** From any of its calls to the last one, both included, the bucket never grants more than burst
      plus what it earns in the time between them. */
  lemma {:induction false} WindowBound(r: Rates, created: real, calls: seq<Call>, i: nat)
    requires Steady(r) && i < |calls| && IsRecord(r, created, calls)
    requires Ordered(created, calls, LastInstant(created, calls))
    ensures Spent(calls, i) <= r.burst + r.earn(LastInstant(created, calls) - calls[i].at)
    decreases |calls|
  {
    var n := |calls| - 1;
    var before, c := calls[..n], calls[n];
    assert calls == before + [c];
    SpentGrows(before, c, i);
    if c.granted {
      assert AnsweredRight(r, created, calls, n);
      GrantFitsWindow(r, created, before, c, i, calls[i].at);
    } else if i < n {
      RecordPrefix(r, created, calls);
      WindowBound(r, created, before, i);
      var last := LastInstant(created, before);
      OrderedAt(created, before, last, i);
      EarningsGrow(r, last - calls[i].at, c.at - calls[i].at);
    } else {
      EarningsGrow(r, 0.0, 0.0);
    }
  }

  lemma RecordPrefix(r: Rates, created: real, calls: seq<Call>)
    requires calls != [] && IsRecord(r, created, calls)
    ensures IsRecord(r, created, calls[..|calls| - 1])
  {
    var before := calls[..|calls| - 1];
    forall k | 0 <= k < |before|
      ensures AnsweredRight(r, created, before, k)
    {
      assert AnsweredRight(r, created, calls, k) && before[..k] == calls[..k];
    }
  }

  // ------------------------------------------------------------- the rule in numbers

  /** What a limiter holds once refilled at an instant, after the calls before. */
  function Holds(ratePerSec: nat, burst: nat, created: real, calls: seq<Call>, now: real): real {
    Level(PerSecond(ratePerSec, burst), created, calls, now)
  }

  /** The cost granted since any refill instant, the creation and the present one included, plus the
      new cost, is at most burst plus rate times the time since. */
  ghost predicate Grants(ratePerSec: nat, burst: nat, created: real, calls: seq<Call>, now: real, cost: real) {
    && cost <= burst as real
    && (forall k :: 0 <= k < |calls| ==>
          Spent(calls, k) + cost <= burst as real + (now - calls[k].at) * (ratePerSec as real))
    && Spent(calls, 0) + cost <= burst as real + (now - created) * (ratePerSec as real)
  }

  /** The limiter grants exactly what every window allows. */
  lemma GrantsIffEveryWindowFits(ratePerSec: nat, burst: nat, created: real, calls: seq<Call>, now: real, cost: real)
    requires Ordered(created, calls, now)
    ensures cost <= Holds(ratePerSec, burst, created, calls, now)
       <==> Grants(ratePerSec, burst, created, calls, now, cost)
  {
    var r := PerSecond(ratePerSec, burst);
    PerSecondIsSteady(ratePerSec, burst);
    LevelWithinWindows(r, created, calls, now);
    WindowsInNumbers(ratePerSec, burst, created, calls, now, cost);
    if FitsEveryWindow(r, created, calls, now, cost) {
      WindowsWithinLevel(r, created, calls, now, cost);
    }
  }

  lemma AllowanceInNumbers(ratePerSec: nat, burst: nat, start: real, calls: seq<Call>, k: nat, now: real)
    ensures Allowance(PerSecond(ratePerSec, burst), start, calls, k, now)
         == burst as real + (now - start) * (ratePerSec as real) - Spent(calls, k)
  {
  }

  lemma WindowsInNumbers(ratePerSec: nat, burst: nat, created: real, calls: seq<Call>, now: real, cost: real)
    ensures FitsEveryWindow(PerSecond(ratePerSec, burst), created, calls, now, cost)
       <==> Grants(ratePerSec, burst, created, calls, now, cost)
  {
    var r := PerSecond(ratePerSec, burst);
    AllowanceInNumbers(ratePerSec, burst, created, calls, 0, now);
    forall k | 0 <= k < |calls|
      ensures CallAllowance(r, calls, k, now) == burst as real + (now - calls[k].at) * (ratePerSec as real) - Spent(calls, k)
    {
      AllowanceInNumbers(ratePerSec, burst, calls[k].at, calls, k, now);
    }
  }

  lemma RecordOfLimiter(ratePerSec: nat, burst: nat, created: real, calls: seq<Call>)
    requires forall j :: 0 <= j < |calls| ==>
               (calls[j].granted <==> calls[j].cost <= Holds(ratePerSec, burst, created, calls[..j], calls[j].at))
    ensures IsRecord(PerSecond(ratePerSec, burst), created, calls)
  {
    forall j | 0 <= j < |calls|
      ensures AnsweredRight(PerSecond(ratePerSec, burst), created, calls, j)
    {
    }
  }

  lemma EarnedInNumbers(ratePerSec: nat, burst: nat, length: real)
    ensures PerSecond(ratePerSec, burst).earn(length) == length * (ratePerSec as real)
    ensures PerSecond(ratePerSec, burst).burst == burst as real
  {
  }

  lemma BoundInNumbers(ratePerSec: nat, burst: nat, created: real, calls: seq<Call>, i: nat, length: real)
    requires i < |calls| && Ordered(created, calls, LastInstant(created, calls))
    requires IsRecord(PerSecond(ratePerSec, burst), created, calls)
    requires length == calls[|calls| - 1].at - calls[i].at
    ensures Spent(calls, i) <= burst as real + length * (ratePerSec as real)
  {
    var r := PerSecond(ratePerSec, burst);
    PerSecondIsSteady(ratePerSec, burst);
    WindowBound(r, created, calls, i);
    EarnedInNumbers(ratePerSec, burst, length);
    assert LastInstant(created, calls) - calls[i].at == length;
    assert Spent(calls, i) <= r.burst + r.earn(length);
  }

  /** From any of its calls to the last one, both included, a limiter never grants more than burst
      plus rate times the time between them. */
  lemma WindowBoundInNumbers(ratePerSec: nat, burst: nat, created: real, calls: seq<Call>, i: nat, elapsed: real)
    requires i < |calls| && Ordered(created, calls, LastInstant(created, calls))
    requires forall j :: 0 <= j < |calls| ==>
               (calls[j].granted <==> calls[j].cost <= Holds(ratePerSec, burst, created, calls[..j], calls[j].at))
    requires elapsed == calls[|calls| - 1].at - calls[i].at
    ensures Spent(calls, i) <= burst as real + elapsed * (ratePerSec as real)
  {
    RecordOfLimiter(ratePerSec, burst, created, calls);
    BoundInNumbers(ratePerSec, burst, created, calls, i, elapsed);
  }

  // -------------------------------------------------------------------- the limiter

  class TokenBucketRateLimiter {
    const ratePerSec: nat
    const burst: nat
    ghost const created: real
    var available: real
    var lastRefill: real
    ghost var calls: seq<Call>

    ghost function Rates(): Rates {
      PerSecond(ratePerSec, burst)
    }

    ghost predicate Valid()
      reads this
    {
      && lastRefill == LastInstant(created, calls)
      && available == Balance(Rates(), created, calls) <= burst as real
      && IsRecord(Rates(), created, calls)
    }

    constructor (ratePerSec: nat, burst: nat, now: real)
      ensures Valid() && this.ratePerSec == ratePerSec && this.burst == burst && created == now && calls == []
    {
      this.ratePerSec, this.burst := ratePerSec, burst;
      created := now;
      available := burst as real;
      lastRefill := now;
      calls := [];
    }

    method TryAcquire(now: real, cost: nat) returns (granted: bool)
      requires Valid()
      modifies this
      ensures Valid() && calls == old(calls) + [Call(now, cost as real, granted)]
      ensures Ordered(created, old(calls), now) ==>
                (granted <==> Grants(ratePerSec, burst, created, old(calls), now, cost as real))
      ensures now <= old(lastRefill) ==> (granted <==> old(available) >= cost as real)
    {
      Refill(now);
      if Ordered(created, calls, now) {
        GrantsIffEveryWindowFits(ratePerSec, burst, created, calls, now, cost as real);
      }
      granted := available >= cost as real;
      if granted {
        available := available - cost as real;
      }
      ghost var before, c := calls, Call(now, cost as real, granted);
      calls := calls + [c];
      assert calls[..|before|] == before;
      forall i | 0 <= i < |calls|
        ensures AnsweredRight(Rates(), created, calls, i)
      {
        assert i < |before| ==> AnsweredRight(Rates(), created, before, i) && calls[..i] == before[..i];
      }
    }

    method Refill(now: real)
      modifies `available, `lastRefill
      ensures lastRefill == now
      ensures available == Refilled(Rates(), old(available), Elapsed(old(lastRefill), now))
      ensures now <= old(lastRefill) && old(available) <= burst as real ==> available == old(available)
      ensures now > old(lastRefill) ==>
                var full := old(available) + (now - old(lastRefill)) * (ratePerSec as real);
                available == if full > burst as real then burst as real else full
    {
      var elapsed := if now > lastRefill then now - lastRefill else 0.0;
      lastRefill := now;
      available := available + elapsed * (ratePerSec as real);
      if available > burst as real {
        available := burst as real;
      }
    }
  }
}
