// Without any assumption on what the broker holds: crashes anywhere, followed by two
// finished passes, leave what two undisturbed passes leave.

module TwoPasses {
  import opened Recovery
  import opened Confluence
  import opened RecoveryConfluence
  import opened RecoveryRuns
  import opened CrashRestart
  import opened RepeatPass

  ghost function TwiceStep(env: Env): (Core, Id) -> Core {
    (c: Core, p: Id) => ReconcilePosition(ReconcilePosition(c, env, p), env, p)
  }

  /** A position moves twice at the most. */
  lemma PositionStops(c: Core, env: Env, p: Id)
    ensures var f := PositionStep(env); f(f(f(c, p), p), p) == f(f(c, p), p)
  {
    var d := ReconcilePosition(c, env, p);
    if LateFlat(c, env, p) {
      LateFlatErrs(c, env, p);
    } else {
      PositionIdempotent(c, env, p);
    }
  }

  lemma LateFlatErrs(c: Core, env: Env, p: Id)
    requires LateFlat(c, env, p)
    ensures var d := ReconcilePosition(ReconcilePosition(c, env, p), env, p); RepairFor(d, env, p).Nothing?
  {
    var d := ReconcilePosition(c, env, p);
    assert d.positions[p].state.PositionOpen? && RepairFor(d, env, p).MoveToError?;
  }

  lemma TwiceConfluent(env: Env)
    ensures Confluent(AnyCore(), TwiceStep(env))
  {
    var f, g := PositionStep(env), TwiceStep(env);
    PositionsCommute(env);
    forall c, p ensures g(g(c, p), p) == g(c, p) {
      PositionStops(c, env, p);
      PositionStops(f(c, p), env, p);
    }
    forall c, p, q ensures g(g(c, p), q) == g(g(c, q), p) {
      StepPastTwice(env, c, p, q);
      StepPastTwice(env, f(c, p), p, q);
    }
  }

  lemma StepPastTwice(env: Env, c: Core, a: Id, q: Id)
    ensures var f, g := PositionStep(env), TwiceStep(env); g(f(c, a), q) == f(g(c, q), a)
  {
    TwoPositionsCommute(c, env, a, q);
    TwoPositionsCommute(PositionStep(env)(c, q), env, a, q);
  }

  lemma {:induction false} StepPastFold(env: Env, c: Core, ids: seq<Id>, a: Id)
    ensures var f := PositionStep(env); Fold(f, f(c, a), ids) == f(Fold(f, c, ids), a)
    decreases ids
  {
    if ids != [] {
      TwoPositionsCommute(c, env, a, ids[0]);
      StepPastFold(env, PositionStep(env)(c, ids[0]), ids[1..], a);
    }
  }

  lemma {:induction false} StepPastTwiceFold(env: Env, c: Core, ids: seq<Id>, a: Id)
    ensures var f, g := PositionStep(env), TwiceStep(env); Fold(g, f(c, a), ids) == f(Fold(g, c, ids), a)
    decreases ids
  {
    if ids != [] {
      StepPastTwice(env, c, a, ids[0]);
      StepPastTwiceFold(env, TwiceStep(env)(c, ids[0]), ids[1..], a);
    }
  }

  /** Going through a list twice is going through it once with two steps each. */
  lemma {:induction false} FoldTwice(env: Env, c: Core, ids: seq<Id>)
    ensures var f := PositionStep(env); Fold(f, Fold(f, c, ids), ids) == Fold(TwiceStep(env), c, ids)
    decreases ids
  {
    if ids != [] {
      var f, a, rest := PositionStep(env), ids[0], ids[1..];
      StepPastFold(env, f(c, a), rest, a);
      FoldTwice(env, TwiceStep(env)(c, a), rest);
    }
  }

  lemma {:induction false} TwicePastFold(env: Env, c: Core, ids: seq<Id>, done: seq<Id>)
    ensures var f, g := PositionStep(env), TwiceStep(env);
      Fold(g, Fold(f, c, done), ids) == Fold(f, Fold(g, c, ids), done)
    decreases done
  {
    if done != [] {
      TwicePastFold(env, PositionStep(env)(c, done[0]), ids, done[1..]);
      StepPastTwiceFold(env, c, ids, done[0]);
    }
  }

  // ---- What is left to do only shrinks ----

  lemma {:induction false} NeverIdle(c: Core, env: Env, ids: seq<Id>, p: Id)
    requires p in c.positions && !c.positions[p].state.Idle?
    ensures var d := Fold(PositionStep(env), c, ids); p in d.positions && !d.positions[p].state.Idle?
    decreases ids
  {
    if ids != [] {
      PositionIsLocal(c, env, p, ids[0]);
      NeverIdle(ReconcilePosition(c, env, ids[0]), env, ids[1..], p);
    }
  }

  /** A position of the list that is no longer unfinished has nothing left to do. */
  lemma FinishedRests(c: Core, env: Env, ids: seq<Id>, p: Id)
    requires Unfinished(c, p)
    ensures var d := Fold(PositionStep(env), c, ids); !Unfinished(d, p) ==> ReconcilePosition(d, env, p) == d
  {
    NeverIdle(c, env, ids, p);
  }

  lemma WithoutOne(ids: seq<Id>, m: nat) returns (rest: seq<Id>)
    requires Distinct(ids) && m < |ids|
    ensures rest == ids[..m] + ids[m + 1..] && ids == ids[..m] + [ids[m]] + ids[m + 1..]
    ensures Distinct(rest) && forall p :: p in rest <==> p in ids && p != ids[m]
  {
    rest := ids[..m] + ids[m + 1..];
    forall j | 0 <= j < |rest| ensures rest[j] == ids[if j < m then j else j + 1] {}
    forall p | p in ids && p != ids[m] ensures p in rest {
      var k :| 0 <= k < |ids| && ids[k] == p;
      assert rest[if k < m then k else k - 1] == p;
    }
  }

  /** Ids with nothing to do may be left out of a list of distinct ids. */
  lemma {:induction false} IdleExtra(env: Env, c: Core, all: seq<Id>, some: seq<Id>)
    requires Distinct(all) && Distinct(some) && forall p :: p in some ==> p in all
    requires forall p :: p in all && p !in some ==> PositionStep(env)(c, p) == c
    ensures Fold(PositionStep(env), c, all) == Fold(PositionStep(env), c, some)
    decreases all
  {
    var f := PositionStep(env);
    if all != [] {
      var a := all[0];
      var rest := WithoutOne(all, 0);
      assert all[1..] == rest;
      if a in some {
        var m :| 0 <= m < |some| && some[m] == a;
        var fewer := WithoutOne(some, m);
        PositionsCommute(env);
        FoldToFront(AnyCore(), f, c, some[..m], a, some[m + 1..]);
        forall p | p in rest && p !in fewer ensures f(f(c, a), p) == f(c, a) {
          TwoPositionsCommute(c, env, a, p);
        }
        IdleExtra(env, f(c, a), rest, fewer);
      } else {
        IdleExtra(env, c, rest, some);
      }
    }
  }

  /** Two finished passes take every position of the settled database two steps. */
  lemma TwoPassesAreTwoSteps(c: Core, env: Env)
    requires Sane(c, env.orders) && Recordable(c, env.orders)
    ensures var mid := Settled(c, env.orders); var once := Repaired(c, env);
      && Sane(once, env.orders) && Recordable(once, env.orders)
      && Repaired(once, env) == Fold(TwiceStep(env), mid, Listed(UnfinishedIds(mid)))
  {
    var mid, once := Settled(c, env.orders), Repaired(c, env);
    var ids, left := Listed(UnfinishedIds(mid)), Listed(UnfinishedIds(once));
    AfterPass(c, env);
    forall p ensures p in left ==> p in ids { UnfinishedOnlyShrinks(mid, env, ids, p); }
    forall p | p in ids && p !in left ensures PositionStep(env)(once, p) == once { FinishedRests(mid, env, ids, p); }
    IdleExtra(env, once, ids, left);
    FoldTwice(env, mid, ids);
  }

  // ---- Crashes ----

  lemma {:induction false} ManyCrashes(db: Db, env: Env, crashes: seq<Crash>) returns (done: seq<Id>)
    requires Sane(db.core, env.orders) && Recordable(db.core, env.orders) && CrashesScanned(db, env, crashes)
    ensures Reached(db.core, AfterCrashes(db, env, crashes).core, env, done)
    decreases |crashes|
  {
    if crashes == [] {
      done := [];
    } else {
      var first := OneCrash(db, env, crashes[0].scans, crashes[0].units);
      var next := AfterUnits(db, env, crashes[0].scans, crashes[0].units);
      var more := ManyCrashes(next, env, crashes[1..]);
      done := first + more;
      var mid := Settled(db.core, env.orders);
      FoldConcat(PositionStep(env), mid, first, more);
      forall p | p in done ensures Unfinished(mid, p) {
        if p in more { UnfinishedOnlyShrinks(mid, env, first, p); }
      }
    }
  }

  lemma ReachedSettlesAlike(c: Core, d: Core, env: Env, done: seq<Id>)
    requires Sane(c, env.orders) && Recordable(c, env.orders) && Reached(c, d, env, done)
    ensures Repaired(Repaired(d, env), env) == Repaired(Repaired(c, env), env)
  {
    var f, g, mid, moved := PositionStep(env), TwiceStep(env), Settled(c, env.orders), Settled(d, env.orders);
    var all, left := Listed(UnfinishedIds(mid)), Listed(UnfinishedIds(moved));
    TwoPassesAreTwoSteps(c, env);
    TwoPassesAreTwoSteps(d, env);
    TwiceConfluent(env);
    forall p | g(moved, p) != moved ensures p in left <==> p in all {
      UnfinishedOnlyShrinks(mid, env, done, p);
      if p in all && p !in left { FinishedRests(mid, env, done, p); }
    }
    SameWork(AnyCore(), g, moved, left, all);
    TwicePastFold(env, mid, all, done);
    var end := Fold(g, mid, all);
    forall p | p in done ensures f(end, p) == end {
      FoldSettles(AnyCore(), g, mid, all, p);
      PositionStops(end, env, p);
    }
    FoldIdle(f, end, done);
  }

  /** Crash as often as you like, wherever you like; then two finished passes leave the
      tables that two undisturbed ones leave, whatever the broker holds. */
  lemma CrashesThenTwoPasses(db: Db, env: Env, crashes: seq<Crash>, a: Scans, b: Scans, c: Scans, d: Scans)
    requires Sane(db.core, env.orders) && Recordable(db.core, env.orders) && CrashesScanned(db, env, crashes)
    requires var start := AfterCrashes(db, env, crashes);
      Scanned(start, env, a) && Scanned(Pass(start, env, a).db, env, b)
    requires Scanned(db, env, c) && Scanned(Pass(db, env, c).db, env, d)
    ensures var start := AfterCrashes(db, env, crashes);
      Pass(Pass(start, env, a).db, env, b).db.core == Pass(Pass(db, env, c).db, env, d).db.core
  {
    var start := AfterCrashes(db, env, crashes);
    var done := ManyCrashes(db, env, crashes);
    ReachedSettlesAlike(db.core, start.core, env, done);
    TwoPassesAreTwoSteps(db.core, env);
    TwoPassesAreTwoSteps(start.core, env);
    PassIsDeterministic(start, env, a);
    PassIsDeterministic(Pass(start, env, a).db, env, b);
    PassIsDeterministic(db, env, c);
    PassIsDeterministic(Pass(db, env, c).db, env, d);
  }
}
