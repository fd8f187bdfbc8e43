// The sliding-window rate limiter: a lock-protected list of recent grants. The
// full history of grants is kept beside it as a ghost, to say what the pruned
// list stands for.

module RateLimiter {
  import opened Broker

  datatype Rule = Rule(maxCalls: nat, per: real) {
    predicate Ok() {
      maxCalls > 0 && per > 0.0
    }
  }

  ghost predicate Sorted(h: seq<real>) {
    forall m, n :: 0 <= m <= n < |h| ==> h[m] <= h[n]
  }

  /** The grants a caller at `now` still competes with. */
  function Recent(h: seq<real>, now: real, per: real): seq<real> {
    if h == [] then []
    else if h[0] > now - per then [h[0]] + Recent(h[1..], now, per)
    else Recent(h[1..], now, per)
  }

  /** Grants in the half-open window (s, e]. */
  function CountIn(h: seq<real>, s: real, e: real): nat {
    if h == [] then 0 else (if s < h[0] <= e then 1 else 0) + CountIn(h[1..], s, e)
  }

  /** No window of the rule's length holds more grants than it allows. */
  ghost predicate Limited(r: Rule, h: seq<real>) {
    forall s: real :: WithinLimit(r, h, s)
  }

  predicate WithinLimit(r: Rule, h: seq<real>, s: real) {
    CountIn(h, s, s + r.per) <= r.maxCalls
  }

  /** Any grant comes at least one window after the one `maxCalls` before it. */
  ghost predicate Spaced(r: Rule, h: seq<real>) {
    forall m :: 0 <= m && m + r.maxCalls < |h| ==> h[m] + r.per <= h[m + r.maxCalls]
  }

  // ---- Windows, counted and spaced ----

  /** In a sorted history the grants after `s` are a suffix. */
  lemma {:induction false} RecentIsSuffix(h: seq<real>, now: real, per: real)
    requires Sorted(h)
    ensures |Recent(h, now, per)| <= |h| && Recent(h, now, per) == h[|h| - |Recent(h, now, per)|..]
    ensures forall m :: 0 <= m < |h| ==> (h[m] > now - per <==> m >= |h| - |Recent(h, now, per)|)
  {
    if h != [] {
      assert Sorted(h[1..]);
      RecentIsSuffix(h[1..], now, per);
      var k := |h| - 1 - |Recent(h[1..], now, per)|;
      if h[0] > now - per {
        assert |h| > 1 ==> h[1] == h[1..][0] && h[0] <= h[1];
        assert k == 0;
        assert h[1..] == Recent(h[1..], now, per);
        assert h == [h[0]] + h[1..];
      } else {
        assert h[1..][k..] == h[1 + k..];
      }
      forall m | 0 <= m < |h| ensures h[m] > now - per <==> m >= |h| - |Recent(h, now, per)| {
        if m > 0 { assert h[m] == h[1..][m - 1]; }
      }
    }
  }

  lemma {:induction false} CountUpTo(h: seq<real>, s: real, e: real, lo: nat, hi: nat)
    requires lo <= hi <= |h| && Sorted(h)
    requires forall m :: 0 <= m < |h| ==> (s < h[m] <= e <==> lo <= m < hi)
    ensures CountIn(h, s, e) == hi - lo
  {
    if h != [] {
      forall m | 0 <= m < |h| - 1 ensures h[1..][m] == h[m + 1] {}
      if lo == hi {
        CountUpTo(h[1..], s, e, 0, 0);
      } else if lo == 0 {
        CountUpTo(h[1..], s, e, 0, hi - 1);
      } else {
        CountUpTo(h[1..], s, e, lo - 1, hi - 1);
      }
    }
  }

  /** The first place at or after which a sorted history exceeds `t`. */
  lemma {:induction false} Boundary(h: seq<real>, t: real) returns (k: nat)
    requires Sorted(h)
    ensures k <= |h| && forall m :: 0 <= m < |h| ==> (h[m] <= t <==> m < k)
  {
    if h == [] || h[0] > t {
      k := 0;
    } else {
      var j := Boundary(h[1..], t);
      k := j + 1;
      forall m | 0 <= m < |h| ensures h[m] <= t <==> m < k {
        if m > 0 { assert h[m] == h[1..][m - 1]; }
      }
    }
  }

  lemma Boundaries(h: seq<real>, s: real, e: real) returns (lo: nat, hi: nat)
    requires Sorted(h) && s <= e
    ensures lo <= hi <= |h|
    ensures forall m :: 0 <= m < |h| ==> (h[m] <= s <==> m < lo) && (h[m] <= e <==> m < hi)
  {
    lo := Boundary(h, s);
    hi := Boundary(h, e);
    hi := if hi < lo then lo else hi;
  }

  lemma SpacedAt(r: Rule, h: seq<real>, m: nat)
    requires Spaced(r, h) && m + r.maxCalls < |h|
    ensures h[m] + r.per <= h[m + r.maxCalls]
  {
  }

  lemma SpacedIsLimited(r: Rule, h: seq<real>)
    requires r.Ok() && Sorted(h) && Spaced(r, h)
    ensures Limited(r, h)
  {
    forall s: real ensures WithinLimit(r, h, s) {
      var lo, hi := Boundaries(h, s, s + r.per);
      CountUpTo(h, s, s + r.per, lo, hi);
      if hi - lo > r.maxCalls {
        SpacedAt(r, h, lo);
      }
    }
  }

  lemma CrowdedIsOver(r: Rule, h: seq<real>, m: nat)
    requires r.Ok() && Sorted(h) && m + r.maxCalls < |h| && h[m] + r.per > h[m + r.maxCalls]
    ensures !WithinLimit(r, h, h[m + r.maxCalls] - r.per)
  {
    var s := h[m + r.maxCalls] - r.per;
    var lo, hi := Boundaries(h, s, s + r.per);
    CountUpTo(h, s, s + r.per, lo, hi);
  }

  /** The rate limit and the spacing of grants are the same thing. */
  lemma LimitedIffSpaced(r: Rule, h: seq<real>)
    requires r.Ok() && Sorted(h)
    ensures Limited(r, h) <==> Spaced(r, h)
  {
    if Spaced(r, h) {
      SpacedIsLimited(r, h);
    } else {
      var m :| 0 <= m && m + r.maxCalls < |h| && h[m] + r.per > h[m + r.maxCalls];
      CrowdedIsOver(r, h, m);
    }
  }

  /** A grant at `now` respects the limit exactly when fewer than `maxCalls` grants
      are recent: the limiter refuses nothing it could allow. */
  lemma GrantIff(r: Rule, h: seq<real>, now: real)
    requires r.Ok() && Sorted(h + [now]) && Limited(r, h)
    ensures Limited(r, h + [now]) <==> |Recent(h, now, r.per)| < r.maxCalls
  {
    assert Sorted(h) by { forall m | 0 <= m < |h| ensures h[m] == (h + [now])[m] {} }
    LimitedIffSpaced(r, h);
    LimitedIffSpaced(r, h + [now]);
    RecentIsSuffix(h, now, r.per);
    var g := h + [now];
    if |h| >= r.maxCalls {
      var m := |h| - r.maxCalls;
      assert Spaced(r, g) <==> g[m] + r.per <= g[m + r.maxCalls];
    }
  }

  /** When the window is full it holds exactly `maxCalls` grants, and the first of
      them says when the next slot comes free. */
  lemma FullWindow(r: Rule, h: seq<real>, now: real)
    requires r.Ok() && Sorted(h) && Limited(r, h) && (h != [] ==> h[|h| - 1] <= now)
    ensures var k := |Recent(h, now, r.per)|;
      && k <= r.maxCalls
      && (k == r.maxCalls ==> |h| >= k && Recent(h, now, r.per)[0] == h[|h| - r.maxCalls] > now - r.per)
  {
    LimitedIffSpaced(r, h);
    RecentIsSuffix(h, now, r.per);
    if |Recent(h, now, r.per)| > r.maxCalls {
      SpacedAt(r, h, |h| - |Recent(h, now, r.per)|);
    }
  }

  lemma {:induction false} RecentConcat(a: seq<real>, b: seq<real>, now: real, per: real)
    ensures Recent(a + b, now, per) == Recent(a, now, per) + Recent(b, now, per)
  {
    if a == [] {
      assert a + b == b;
    } else {
      assert (a + b)[0] == a[0] && (a + b)[1..] == a[1..] + b;
      RecentConcat(a[1..], b, now, per);
    }
  }

  /** Pruning early loses nothing: the pruned list counts what the full history would. */
  lemma {:induction false} PruneTwice(h: seq<real>, earlier: real, now: real, per: real)
    requires earlier <= now
    ensures Recent(Recent(h, earlier, per), now, per) == Recent(h, now, per)
  {
    if h != [] {
      PruneTwice(h[1..], earlier, now, per);
      if h[0] > earlier - per {
        var rest := Recent(h[1..], earlier, per);
        assert ([h[0]] + rest)[1..] == rest;
      }
    }
  }

  /** No slot comes free before the instant a refused caller is told to wait for,
      however many grants other threads take meanwhile. */
  lemma NoEarlierSlot(r: Rule, h: seq<real>, now: real, more: seq<real>, later: real)
    requires r.Ok() && Sorted(h) && (h != [] ==> h[|h| - 1] <= now) && Limited(r, h)
    requires |Recent(h, now, r.per)| == r.maxCalls <= |h|
    requires now <= later < h[|h| - r.maxCalls] + r.per
    ensures |Recent(h + more, later, r.per)| >= r.maxCalls
  {
    RecentConcat(h, more, later, r.per);
    RecentIsSuffix(h, later, r.per);
    RecentIsSuffix(h, now, r.per);
  }

  /** The history after one more attempt, by whichever thread, at `now`. */
  function Admit(r: Rule, h: seq<real>, now: real): seq<real> {
    if |Recent(h, now, r.per)| < r.maxCalls then h + [now] else h
  }

  function AdmitAll(r: Rule, h: seq<real>, attempts: seq<real>): seq<real>
    decreases attempts
  {
    if attempts == [] then h else AdmitAll(r, Admit(r, h, attempts[0]), attempts[1..])
  }

  /** Across all threads and all time: whatever the attempts, no window is overfull. */
  lemma {:induction false} EveryRunIsLimited(r: Rule, h: seq<real>, attempts: seq<real>)
    requires r.Ok() && Sorted(h) && Limited(r, h) && Sorted(attempts)
    requires h != [] && attempts != [] ==> h[|h| - 1] <= attempts[0]
    ensures Sorted(AdmitAll(r, h, attempts)) && Limited(r, AdmitAll(r, h, attempts))
    decreases attempts
  {
    if attempts != [] {
      GrantIff(r, h, attempts[0]);
      EveryRunIsLimited(r, Admit(r, h, attempts[0]), attempts[1..]);
    }
  }

  // ---- The limiter ----

  datatype Attempt = Granted | Full(waitUntil: real)

  class TokenBucket {
    const rule: Rule
    var calls: seq<real>
    /** Every grant ever given, and the latest reading of the clock. */
    ghost var history: seq<real>
    ghost var clock: real

    ghost predicate Valid()
      reads this
    {
      && rule.Ok() && Sorted(history) && Limited(rule, history)
      && (history != [] ==> history[|history| - 1] <= clock)
      && calls == Recent(history, clock, rule.per)
    }

    constructor (rule: Rule)
      requires rule.Ok()
      ensures Valid() && this.rule == rule && history == []
    {
      this.rule, calls, history, clock := rule, [], [], 0.0;
    }

    method Prune(now: real) returns (kept: seq<real>)
      ensures kept == Recent(calls, now, rule.per)
    {
      kept := [];
      for i := 0 to |calls|
        invariant kept == Recent(calls[..i], now, rule.per)
      {
        assert calls[..i + 1] == calls[..i] + [calls[i]];
        RecentConcat(calls[..i], [calls[i]], now, rule.per);
        if calls[i] > now - rule.per {
          kept := kept + [calls[i]];
        }
      }
      assert calls[..|calls|] == calls;
    }

    /** The lock-protected section: prune, then take a slot or say when one comes free. */
    method Try(now: real) returns (result: Attempt)
      requires Valid() && now >= clock
      modifies this
      ensures Valid() && clock == now
      ensures result.Granted? <==> Limited(rule, old(history) + [now])
      ensures history == Admit(rule, old(history), now)
      ensures result.Granted? ==> history == old(history) + [now]
      ensures result.Full? ==>
        history == old(history) && |history| >= rule.maxCalls &&
        result.waitUntil == history[|history| - rule.maxCalls] + rule.per > now
    {
      var kept := Prune(now);
      PruneTwice(history, clock, now, rule.per);
      GrantIff(rule, history, now);
      FullWindow(rule, history, now);
      calls, clock := kept, now;
      if |calls| < rule.maxCalls {
        RecentConcat(history, [now], now, rule.per);
        calls, history := calls + [now], history + [now];
        return Granted;
      }
      return Full(calls[0] + rule.per);
    }

    /** A lone caller that arrives at `arrival` and, told to wait until `t`, wakes at
        `wake(t)`. It is refused exactly when no slot is free and none comes free by
        its deadline, and then takes none; otherwise it gets the first free slot. */
    method Acquire(deadline: Option<real>, arrival: real, wake: real -> real) returns (granted: bool)
      requires Valid() && arrival >= clock && forall t :: wake(t) >= t
      modifies this
      ensures Valid()
      ensures var free := EarliestFree(rule, old(history), arrival);
        && granted == !(free > arrival && deadline.Some? && free > deadline.value)
        && history == if granted then old(history) + [if free > arrival then wake(free) else arrival] else old(history)
    {
      FreeIsFirst(rule, history, arrival);
      var attempt := Try(arrival);
      if attempt.Full? {
        if deadline.Some? && attempt.waitUntil > deadline.value {
          return false;
        }
        FreeIsFirst(rule, history, wake(attempt.waitUntil));
        attempt := Try(wake(attempt.waitUntil));
        assert attempt.Granted?;
      }
      return true;
    }
  }

  /** The first instant, not before `now`, at which one more grant is allowed. */
  function EarliestFree(r: Rule, h: seq<real>, now: real): real
    requires r.Ok()
  {
    if |h| < r.maxCalls || h[|h| - r.maxCalls] + r.per <= now then now else h[|h| - r.maxCalls] + r.per
  }

  lemma FreeIsFirst(r: Rule, h: seq<real>, now: real)
    requires r.Ok() && Sorted(h) && Limited(r, h) && (h != [] ==> h[|h| - 1] <= now)
    ensures forall t :: t >= now ==> (Limited(r, h + [t]) <==> t >= EarliestFree(r, h, now))
  {
    LimitedIffSpaced(r, h);
    forall t | t >= now ensures Limited(r, h + [t]) <==> t >= EarliestFree(r, h, now) {
      var g := h + [t];
      assert Sorted(g);
      LimitedIffSpaced(r, g);
      if |h| >= r.maxCalls {
        var m := |h| - r.maxCalls;
        assert Spaced(r, g) <==> g[m] + r.per <= g[m + r.maxCalls];
      }
    }
  }
}
