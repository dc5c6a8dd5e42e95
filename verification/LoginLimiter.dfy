/** The login rate limiter of apps/auth-service: a fixed window per key. */
module LoginLimiter {
  import opened Wrappers

  // Instants are nanoseconds; the window is a minute.
  const WINDOW: nat := 60_000_000_000
  const MAX_ATTEMPTS: nat := 30
  const U32_MAX: nat := 0xFFFF_FFFF

  datatype RateWindow = RateWindow(startedAt: nat, attempts: nat)

  /** How long after an instant another one is: none if it is not after. */
  function Since(start: nat, now: nat): nat {
    if now > start then now - start else 0
  }

  // ---------------------------------------------------------------- one key's calls

  /** The window after one more call. */
  function Attempt(w: Option<RateWindow>, now: nat): RateWindow {
    if w.None? || Since(w.value.startedAt, now) > WINDOW then RateWindow(now, 1)
    else w.value.(attempts := Min(w.value.attempts + 1, U32_MAX))
  }

  function Window(calls: seq<nat>): Option<RateWindow>
    decreases |calls|
  {
    if calls == [] then None else Some(Attempt(Window(calls[..|calls| - 1]), calls[|calls| - 1]))
  }

  /** Whether the last of a sequence of calls is answered "not limited". */
  predicate Admitted(calls: seq<nat>)
    requires calls != []
  {
    Window(calls).value.attempts <= MAX_ATTEMPTS
  }

  /** How many of the calls from i to j, j excluded, are not limited. */
  function AdmittedIn(calls: seq<nat>, i: nat, j: nat): nat
    requires i <= j <= |calls|
    decreases j
  {
    if i == j then 0 else AdmittedIn(calls, i, j - 1) + if Admitted(calls[..j]) then 1 else 0
  }

  /** The call that opened the window call k falls in. */
  function Opener(calls: seq<nat>, k: nat): (p: nat)
    requires k < |calls|
    ensures p <= k
  {
    if k == 0 then 0
    else
      var p := Opener(calls, k - 1);
      if Since(calls[p], calls[k]) > WINDOW then k else p
  }

  lemma {:induction false} WindowOfOpener(calls: seq<nat>, k: nat)
    requires k < |calls|
    ensures Window(calls[..k + 1]) == Some(RateWindow(calls[Opener(calls, k)], Min(k - Opener(calls, k) + 1, 0xFFFF_FFFF)))
  {
    assert calls[..k + 1][..k] == calls[..k];
    if k > 0 {
      WindowOfOpener(calls, k - 1);
    } else {
      assert calls[..0] == [];
    }
  }

  /** A call is admitted exactly when it is among the first thirty of its window. */
  lemma {:induction false} AdmittedByPosition(calls: seq<nat>, k: nat)
    requires k < |calls|
    ensures Admitted(calls[..k + 1]) <==> k - Opener(calls, k) < 30
  {
    WindowOfOpener(calls, k);
  }

  lemma {:induction false} OneWindow(calls: seq<nat>, k: nat, j: nat)
    requires j < |calls| && Opener(calls, j) <= k <= j
    ensures Opener(calls, k) == Opener(calls, j)
    decreases j - k
  {
    if k < j {
      OneWindow(calls, k + 1, j);
    }
  }

  /** Of the calls of one window from i on, at most thirty less those before i are admitted. */
  lemma {:induction false} AdmittedOfOneWindow(calls: seq<nat>, i: nat, j: nat, p: nat)
    requires p <= i <= j <= |calls|
    requires i < j ==> Opener(calls, j - 1) == p
    ensures AdmittedIn(calls, i, j) <= Max(0, Min(j, p + 30) - i)
    decreases j
  {
    if i < j {
      AdmittedByPosition(calls, j - 1);
      if i < j - 1 {
        OneWindow(calls, j - 2, j - 1);
      }
      AdmittedOfOneWindow(calls, i, j - 1, p);
    }
  }

  lemma {:induction false} AdmittedSplit(calls: seq<nat>, i: nat, q: nat, j: nat)
    requires i <= q <= j <= |calls|
    ensures AdmittedIn(calls, i, j) == AdmittedIn(calls, i, q) + AdmittedIn(calls, q, j)
    decreases j
  {
    if q < j {
      AdmittedSplit(calls, i, q, j - 1);
    }
  }

  /** What separates two windows: a call opens one exactly if it is over a minute after the first
      call of the window before, and otherwise falls in that window. */
  lemma {:induction false} WindowsFarApart(calls: seq<nat>, q: nat)
    requires 0 < q < |calls|
    ensures Opener(calls, q) == q <==> calls[q] > calls[Opener(calls, q - 1)] + 60_000_000_000
    ensures Opener(calls, q) != q ==> Opener(calls, q) == Opener(calls, q - 1)
  {
  }

  lemma {:induction false} OpenerOpens(calls: seq<nat>, k: nat)
    requires k < |calls|
    ensures Opener(calls, Opener(calls, k)) == Opener(calls, k)
  {
    if k > 0 && Opener(calls, k) != k {
      OpenerOpens(calls, k - 1);
    }
  }

  /** The instants of the calls never decrease. */
  predicate Ordered(calls: seq<nat>)
    decreases |calls|
  {
    |calls| < 2 || (calls[|calls| - 2] <= calls[|calls| - 1] && Ordered(calls[..|calls| - 1]))
  }

  lemma {:induction false} OrderedAt(calls: seq<nat>, i: nat, j: nat)
    requires Ordered(calls) && i <= j < |calls|
    ensures calls[i] <= calls[j]
    decreases |calls|
  {
    var n := |calls| - 1;
    if i < n {
      OrderedAt(calls[..n], i, if j < n then j else n - 1);
    }
  }

  /** A minute that reaches into a later window has left out the call that opened the one before. */
  lemma {:induction false} OpenerLeftOut(calls: seq<nat>, i: nat, q: nat, j: nat)
    requires Ordered(calls) && i < q <= j < |calls| && calls[j] <= calls[i] + 60_000_000_000
    requires Opener(calls, q) == q
    ensures Opener(calls, q - 1) < i
  {
    var p := Opener(calls, q - 1);
    WindowsFarApart(calls, q);
    OrderedAt(calls, q, j);
    if i <= p {
      OrderedAt(calls, i, p);
    }
  }

  /** Any closed interval of one minute holds at most 59 calls of a key that are not limited. */
  lemma {:induction false} AtMost59PerMinute(calls: seq<nat>, i: nat, j: nat)
    requires Ordered(calls) && i <= j < |calls| && calls[j] <= calls[i] + 60_000_000_000
    ensures AdmittedIn(calls, i, j + 1) <= 59
  {
    var q := Opener(calls, j);
    if q <= i {
      AdmittedOfOneWindow(calls, i, j + 1, q);
    } else {
      OpenerOpens(calls, j);
      OpenerLeftOut(calls, i, q, j);
      AdmittedSplit(calls, i, q, j + 1);
      AdmittedOfOneWindow(calls, i, q, Opener(calls, q - 1));
      AdmittedOfOneWindow(calls, q, j + 1, q);
    }
  }

  // ------------------------------------------------------------------ 59 is reached

  /** One call, 29 more a nanosecond later, and 30 a minute and a nanosecond after the first. */
  function Burst(): seq<nat> {
    seq(60, i => if i == 0 then 0 else if i < 30 then 1 else 60_000_000_001)
  }

  lemma {:induction false} BurstOpeners(k: nat)
    requires k < 60
    ensures Opener(Burst(), k) == if k < 30 then 0 else 30
  {
    if k > 0 {
      BurstOpeners(k - 1);
    }
  }

  lemma {:induction false} BurstAdmitted(j: nat)
    requires 1 <= j <= 60
    ensures AdmittedIn(Burst(), 1, j) == j - 1
  {
    if j > 1 {
      BurstAdmitted(j - 1);
      BurstOpeners(j - 1);
      AdmittedByPosition(Burst(), j - 1);
    }
  }

  lemma {:induction false} BurstOrdered(n: nat)
    requires n <= 60
    ensures Ordered(Burst()[..n])
  {
    if n >= 2 {
      BurstOrdered(n - 1);
      assert Burst()[..n][..n - 1] == Burst()[..n - 1];
    }
  }

  lemma BoundIsReached() returns (calls: seq<nat>, i: nat, j: nat)
    ensures Ordered(calls) && i <= j < |calls| && calls[j] <= calls[i] + 60_000_000_000
    ensures AdmittedIn(calls, i, j + 1) == 59
  {
    calls, i, j := Burst(), 1, 59;
    BurstOrdered(60);
    assert calls[..60] == calls;
    BurstAdmitted(60);
  }

  // -------------------------------------------------------------- keys side by side

  datatype Call = Call(key: string, at: nat)

  /** One key's own calls, in order. */
  function Of(calls: seq<Call>, key: string): seq<nat>
    decreases |calls|
  {
    if calls == [] then []
    else
      var earlier, c := Of(calls[..|calls| - 1], key), calls[|calls| - 1];
      if c.key == key then earlier + [c.at] else earlier
  }

  class RateLimiter {
    var windows: map<string, RateWindow>
    ghost var calls: seq<Call>

    /** Every key's window is what its own calls make it. */
    ghost predicate Valid()
      reads this
    {
      forall key :: Lookup(key) == Window(Of(calls, key))
    }

    function Lookup(key: string): Option<RateWindow>
      reads this
    {
      if key in windows then Some(windows[key]) else None
    }

    constructor ()
      ensures Valid() && calls == []
    {
      windows, calls := map[], [];
    }

    /** The answer to a call depends on the calls of its own key alone. */
    method IsRateLimited(key: string, now: nat) returns (limited: bool)
      requires Valid()
      modifies this
      ensures Valid() && calls == old(calls) + [Call(key, now)]
      ensures limited <==> !Admitted(Of(old(calls), key) + [now])
    {
      ghost var before := calls;
      var entry := if key in windows then windows[key] else RateWindow(now, 0);
      if Since(entry.startedAt, now) > WINDOW {
        entry := RateWindow(now, 0);
      }
      entry := entry.(attempts := if entry.attempts < U32_MAX then entry.attempts + 1 else U32_MAX);
      windows := windows[key := entry];
      calls := calls + [Call(key, now)];
      limited := entry.attempts > MAX_ATTEMPTS;
      assert calls[..|before|] == before;
      ghost var own := Of(before, key);
      assert (own + [now])[..|own|] == own;
      forall other
        ensures Lookup(other) == Window(Of(calls, other))
      {
        assert other != key ==> Of(calls, other) == Of(before, other);
      }
    }
  }
}
