// Running a completed pass again: exactly when it repairs nothing more, that a
// third pass never does, and exactly which breaks it records once more.

module RepeatPass {
  import opened Broker
  import opened Recovery
  import opened Confluence
  import opened RecoveryConfluence
  import opened RecoveryRuns
  import opened CrashRestart

  /** Each scanned position is moved once, and only by its own unit of work. */
  lemma {:induction false} PositionOutcome(c: Core, env: Env, ids: seq<Id>, p: Id)
    requires Distinct(ids) && p in c.positions
    ensures var d := Fold(PositionStep(env), c, ids);
      && d.trades == c.trades && p in d.positions
      && d.positions[p] == (if p in ids then ReconcilePosition(c, env, p).positions[p] else c.positions[p])
      && (p !in ids ==> RepairFor(d, env, p) == RepairFor(c, env, p))
    decreases |ids|
  {
    if ids != [] {
      var q := ids[0];
      PositionIsLocal(c, env, p, q);
      if p != q {
        PositionIsLocal(c, env, p, q);
      } else {
        assert q !in ids[1..];
      }
      assert ids == [q] + ids[1..];
      var c' := ReconcilePosition(c, env, q);
      PositionOutcome(c', env, ids[1..], p);
    }
  }

  lemma {:induction false} PositionsKept(c: Core, env: Env, ids: seq<Id>)
    ensures Fold(PositionStep(env), c, ids).positions.Keys == c.positions.Keys
    decreases |ids|
  {
    if ids != [] {
      PositionIsLocal(c, env, 0, ids[0]);
      PositionsKept(ReconcilePosition(c, env, ids[0]), env, ids[1..]);
    }
  }

  lemma MovedPositionRests(mid: Core, d: Core, env: Env, p: Id)
    requires d.trades == mid.trades && p in mid.positions && p in d.positions
    requires d.positions[p] == (if Unfinished(mid, p) then ReconcilePosition(mid, env, p) else mid).positions[p]
    ensures !LateFlat(d, env, p)
    ensures Unfinished(d, p) ==> RestingPosition(d, env, p)
  {
    if Unfinished(mid, p) {
      match RepairFor(mid, env, p)
      case Nothing => assert d.positions[p] == mid.positions[p];
      case MoveToError(_, reason) => assert d.positions[p].state.Errored?;
      case FinalizeEntry =>
      case FinalizeExit =>
      case AbortEntry =>
    }
  }

  /** A database a completed pass has left behind. */
  lemma AfterPass(c: Core, env: Env)
    requires Sane(c, env.orders) && Recordable(c, env.orders)
    ensures var d := Repaired(c, env);
      && Sane(d, env.orders) && Recordable(d, env.orders) && IntentsSettled(d, env.orders)
      && Settled(d, env.orders) == d && EntriesLive(d, env)
      && (forall p | Unfinished(d, p) :: RestingPosition(d, env, p))
  {
    var mid, d := Settled(c, env.orders), Repaired(c, env);
    var ids := Listed(UnfinishedIds(mid));
    SettledIsSettled(c, env.orders);
    RecordableAfter(c, env.orders, Listed(InDoubtIds(c)));
    PositionRunKeepsSettled(mid, env, ids);
    CrashAmongPositions(mid, env, ids);
    PositionsKept(mid, env, ids);
    forall p | p in d.positions ensures !LateFlat(d, env, p) && (Unfinished(d, p) ==> RestingPosition(d, env, p)) {
      PositionOutcome(mid, env, ids, p);
      MovedPositionRests(mid, d, env, p);
    }
    assert NoLateFlat(d, env);
  }

  /** A position a pass leaves unfinished: waiting for a hook that is not there,
      waiting for the strategy's own exit recovery, or open. */
  predicate RestingPosition(c: Core, env: Env, p: Id) {
    var r := RepairFor(c, env, p);
    p in c.positions &&
    match c.positions[p].state
    case EntryPending => r.FinalizeEntry? && env.hook.None?
    case ExitPending => r.Nothing? || (r.FinalizeExit? && env.hook.None?)
    case PositionOpen => r.Nothing? || (r.MoveToError? && r.kind.BrokerFlatDbOpen?)
    case _ => false
  }

  lemma FlatOnceOpen(mid: Core, d: Core, env: Env, p: Id)
    requires LateFlat(mid, env, p) && d.trades == mid.trades && p in d.positions
    requires d.positions[p] == ReconcilePosition(mid, env, p).positions[p]
    ensures Unfinished(d, p) && ReconcilePosition(d, env, p).positions[p] != d.positions[p]
  {
    assert d.positions[p].state.PositionOpen?;
    assert RepairFor(d, env, p).MoveToError?;
  }

  lemma LateFlatMovesTwice(c: Core, env: Env, p: Id)
    requires Sane(c, env.orders) && Recordable(c, env.orders) && LateFlat(Settled(c, env.orders), env, p)
    ensures Repaired(Repaired(c, env), env) != Repaired(c, env)
  {
    var mid, d := Settled(c, env.orders), Repaired(c, env);
    AfterPass(c, env);
    PositionOutcome(mid, env, Listed(UnfinishedIds(mid)), p);
    FlatOnceOpen(mid, d, env, p);
    PositionOutcome(d, env, Listed(UnfinishedIds(d)), p);
  }

  /** The documented idempotence of repairs, and exactly when it holds: a second
      pass repairs nothing more iff no entry was finalized over a flat leg. */
  lemma SecondPassIdleIff(db: Db, env: Env, first: Scans, second: Scans)
    requires Sane(db.core, env.orders) && Recordable(db.core, env.orders)
    requires Scanned(db, env, first) && Scanned(Pass(db, env, first).db, env, second)
    ensures var once := Pass(db, env, first).db;
      Pass(once, env, second).db.core == once.core <==> EntriesLive(db.core, env)
  {
    PassIsDeterministic(db, env, first);
    AfterPass(db.core, env);
    PassIsDeterministic(Pass(db, env, first).db, env, second);
    if EntriesLive(db.core, env) {
      var mid := Settled(db.core, env.orders);
      SettledIsSettled(db.core, env.orders);
      RecordableAfter(db.core, env.orders, Listed(InDoubtIds(db.core)));
      SettledUnchanged(mid, env.orders);
      CrashAmongPositions(mid, env, Listed(UnfinishedIds(mid)));
    } else {
      var p :| LateFlat(Settled(db.core, env.orders), env, p);
      LateFlatMovesTwice(db.core, env, p);
    }
  }

  /** Even then one more pass is enough: the third pass never repairs anything. */
  lemma ThirdPassIdle(db: Db, env: Env, first: Scans, second: Scans, third: Scans)
    requires Sane(db.core, env.orders) && Recordable(db.core, env.orders)
    requires Scanned(db, env, first)
    requires Scanned(Pass(db, env, first).db, env, second)
    requires Scanned(Pass(Pass(db, env, first).db, env, second).db, env, third)
    ensures var twice := Pass(Pass(db, env, first).db, env, second).db;
      Pass(twice, env, third).db.core == twice.core
  {
    PassIsDeterministic(db, env, first);
    AfterPass(db.core, env);
    SecondPassIdleIff(Pass(db, env, first).db, env, second, third);
  }

  // ------------------------------------------------------- breaks of a repeat

  ghost function Flat<T>(f: T -> seq<Break>, ids: seq<T>): seq<Break> {
    if ids == [] then [] else f(ids[0]) + Flat(f, ids[1..])
  }

  lemma {:induction false} FlatMembers<T>(f: T -> seq<Break>, ids: seq<T>, b: Break)
    ensures b in Flat(f, ids) <==> exists x :: x in ids && b in f(x)
  {
    if ids != [] {
      FlatMembers(f, ids[1..], b);
      assert ids == [ids[0]] + ids[1..];
      if b in f(ids[0]) { assert ids[0] in ids; }
    }
  }

  lemma {:induction false} FlatCongruent<T>(f: T -> seq<Break>, g: T -> seq<Break>, ids: seq<T>)
    requires forall x | x in ids :: f(x) == g(x)
    ensures Flat(f, ids) == Flat(g, ids)
  {
    if ids != [] {
      assert ids[0] in ids;
      FlatCongruent(f, g, ids[1..]);
    }
  }

  ghost function IntentBreaksIn(c: Core, orders: seq<BrokerOrder>): Id -> seq<Break> {
    (i: Id) => IntentBreaks(c, orders, i)
  }

  ghost function OrphanBreaksIn(c: Core, orders: seq<BrokerOrder>): string -> seq<Break> {
    (tag: string) => OrphanBreak(c, orders, tag)
  }

  ghost function PositionBreaksIn(c: Core, env: Env): Id -> seq<Break> {
    (p: Id) => PositionBreaks(c, env, p)
  }

  lemma {:induction false} SettledIntentPhase(db: Db, env: Env, scan: seq<Id>)
    requires Recordable(db.core, env.orders) && IntentsSettled(db.core, env.orders)
    ensures RunIntents(db, env, scan)
      == Run(Db(db.core, db.breaks + Flat(IntentBreaksIn(db.core, env.orders), scan)), false)
    decreases |scan|
  {
    if scan != [] {
      var more := IntentBreaks(db.core, env.orders, scan[0]);
      assert ReconcileIntent(db.core, env.orders, scan[0]) == db.core;
      SettledIntentPhase(Db(db.core, db.breaks + more), env, scan[1..]);
      var rest := Flat(IntentBreaksIn(db.core, env.orders), scan[1..]);
      assert db.breaks + more + rest == db.breaks + (more + rest);
    } else {
      assert db.breaks + [] == db.breaks;
    }
  }

  lemma {:induction false} OrphanPhase(c: Core, orders: seq<BrokerOrder>, tags: seq<string>)
    ensures OrphanBreaks(c, orders, tags) == Flat(OrphanBreaksIn(c, orders), tags)
  {
    if tags != [] {
      OrphanPhase(c, orders, tags[1..]);
    }
  }

  lemma LaterBreaksSame(c: Core, env: Env, q: Id, rest: seq<Id>)
    requires q !in rest
    ensures Flat(PositionBreaksIn(ReconcilePosition(c, env, q), env), rest) == Flat(PositionBreaksIn(c, env), rest)
  {
    var d := ReconcilePosition(c, env, q);
    forall p | p in rest ensures PositionBreaksIn(d, env)(p) == PositionBreaksIn(c, env)(p) {
      PositionIsLocal(c, env, p, q);
    }
    FlatCongruent(PositionBreaksIn(d, env), PositionBreaksIn(c, env), rest);
  }

  lemma Regroup<T>(a: seq<T>, b: seq<T>, c: seq<T>)
    ensures a + b + c == a + (b + c)
  {
  }

  lemma {:induction false} PositionPhaseBreaks(db: Db, env: Env, scan: seq<Id>)
    requires Distinct(scan)
    ensures RunPositions(db, env, scan).breaks == db.breaks + Flat(PositionBreaksIn(db.core, env), scan)
    decreases |scan|
  {
    if scan == [] {
      assert db.breaks + [] == db.breaks;
    } else {
      var q, rest := scan[0], scan[1..];
      var next := Db(ReconcilePosition(db.core, env, q), db.breaks + PositionBreaks(db.core, env, q));
      var more, tail := PositionBreaks(db.core, env, q), Flat(PositionBreaksIn(db.core, env), rest);
      calc {
        RunPositions(db, env, scan).breaks;
        RunPositions(next, env, rest).breaks;
        { PositionPhaseBreaks(next, env, rest); LaterBreaksSame(db.core, env, q, rest); }
        db.breaks + more + tail;
        { Regroup(db.breaks, more, tail); }
        db.breaks + (more + tail);
        db.breaks + Flat(PositionBreaksIn(db.core, env), scan);
      }
    }
  }

  /** The breaks a repeat pass records again, each in full. */
  ghost predicate RepeatBreak(c: Core, env: Env, b: Break) {
    match b.subject
    case OfTag(t) =>
      && t in TagSet(env.orders) && (forall i | i in c.intents :: c.intents[i].tag != t)
      && b == Break(OrphanFill, OfTag(t), None, OrderIds(OrderIdsOf(Matches(env.orders, t))))
    case OfIntent(i) =>
      && InDoubt(c, i) && |Matches(env.orders, c.intents[i].tag)| > 1
      && b == Break(QuantityMismatch, OfIntent(i), None, OrderIds(OrderIdsOf(Matches(env.orders, c.intents[i].tag))))
    case OfPosition(p) =>
      && Unfinished(c, p) && var legs := Legs(c.trades, p);
      match c.positions[p].state
      case PositionOpen =>
        && env.held.Some? && MissingSymbols(legs, env.held.value) != {}
        && b == Break(BrokerFlatDbOpen, OfPosition(p), None, Because(BrokerFlat(MissingSymbols(legs, env.held.value))))
      case ExitPending =>
        && env.hook.None? && LegsIn(legs, LegClosed) != {} && LegsIn(legs, LegOpen) == {}
        && b == Break(Other, OfPosition(p), None, NoReconciler)
      case _ => env.hook.None? && b == Break(Other, OfPosition(p), None, NoReconciler)
  }

  lemma SettledIntentBreaks(c: Core, env: Env, scan: seq<Id>, b: Break)
    requires Recordable(c, env.orders) && IntentsSettled(c, env.orders) && IntentScan(c, scan)
    ensures b in Flat(IntentBreaksIn(c, env.orders), scan) <==> b.subject.OfIntent? && RepeatBreak(c, env, b)
  {
    FlatMembers(IntentBreaksIn(c, env.orders), scan, b);
    forall i | InDoubt(c, i)
      ensures b in IntentBreaks(c, env.orders, i) <==> b.subject == OfIntent(i) && RepeatBreak(c, env, b)
    {
      assert ReconcileIntent(c, env.orders, i) == c;
    }
    if b.subject.OfIntent? && RepeatBreak(c, env, b) {
      assert b in IntentBreaksIn(c, env.orders)(b.subject.i);
    }
  }

  lemma RepeatOrphanBreaks(c: Core, env: Env, tags: seq<string>, b: Break)
    requires TagScan(env, tags)
    ensures b in Flat(OrphanBreaksIn(c, env.orders), tags) <==> b.subject.OfTag? && RepeatBreak(c, env, b)
  {
    FlatMembers(OrphanBreaksIn(c, env.orders), tags, b);
    if b.subject.OfTag? && RepeatBreak(c, env, b) {
      assert b in OrphanBreaksIn(c, env.orders)(b.subject.tag);
    }
  }

  lemma RestingPositionBreak(c: Core, env: Env, p: Id, b: Break)
    requires Unfinished(c, p) && RestingPosition(c, env, p)
    ensures b in PositionBreaks(c, env, p) <==> b.subject == OfPosition(p) && RepeatBreak(c, env, b)
  {
  }

  lemma RestingPositionBreaks(c: Core, env: Env, scan: seq<Id>, b: Break)
    requires PositionScan(c, scan) && forall p | Unfinished(c, p) :: RestingPosition(c, env, p)
    ensures b in Flat(PositionBreaksIn(c, env), scan) <==> b.subject.OfPosition? && RepeatBreak(c, env, b)
  {
    FlatMembers(PositionBreaksIn(c, env), scan, b);
    forall p | Unfinished(c, p)
      ensures b in PositionBreaks(c, env, p) <==> b.subject == OfPosition(p) && RepeatBreak(c, env, b)
    {
      RestingPositionBreak(c, env, p, b);
    }
    if b.subject.OfPosition? && RepeatBreak(c, env, b) {
      assert b in PositionBreaksIn(c, env)(b.subject.p);
    }
  }

  /** The documented "no duplicate breaks" holds only where four situations are
      absent: a repeat pass records exactly the orphan tags, the in-doubt intents
      with several orders, the positions waiting without a hook and the open
      positions now flat at the broker. */
  lemma RepeatBreaksExactly(db: Db, env: Env, first: Scans, second: Scans, b: Break)
    requires Sane(db.core, env.orders) && Recordable(db.core, env.orders)
    requires Scanned(db, env, first) && Scanned(Pass(db, env, first).db, env, second)
    ensures var once := Pass(db, env, first).db; var twice := Pass(once, env, second).db;
      && once.breaks <= twice.breaks
      && (b in twice.breaks[|once.breaks|..] <==> RepeatBreak(once.core, env, b))
  {
    var once := Pass(db, env, first).db;
    PassIsDeterministic(db, env, first);
    AfterPass(db.core, env);
    BreaksAtRest(once, env, second, b);
  }

  lemma BreaksAtRest(once: Db, env: Env, s: Scans, b: Break)
    requires Recordable(once.core, env.orders) && IntentsSettled(once.core, env.orders) && Scanned(once, env, s)
    requires forall p | Unfinished(once.core, p) :: RestingPosition(once.core, env, p)
    ensures var twice := Pass(once, env, s).db;
      && once.breaks <= twice.breaks
      && (b in twice.breaks[|once.breaks|..] <==> RepeatBreak(once.core, env, b))
  {
    SettledIntentPhase(once, env, s.intents);
    SettledIntentBreaks(once.core, env, s.intents, b);
    RepeatOrphanBreaks(once.core, env, s.tags, b);
    RestingPositionBreaks(once.core, env, s.positions, b);
    PassBreaks(once, env, s);
  }

  lemma PassBreaks(once: Db, env: Env, s: Scans)
    requires Recordable(once.core, env.orders) && IntentsSettled(once.core, env.orders) && Distinct(s.positions)
    ensures Pass(once, env, s).db.breaks ==
      once.breaks + (Flat(IntentBreaksIn(once.core, env.orders), s.intents)
      + Flat(OrphanBreaksIn(once.core, env.orders), s.tags) + Flat(PositionBreaksIn(once.core, env), s.positions))
  {
    var c := once.core;
    var intents, orphans, positions := Flat(IntentBreaksIn(c, env.orders), s.intents),
      Flat(OrphanBreaksIn(c, env.orders), s.tags), Flat(PositionBreaksIn(c, env), s.positions);
    SettledIntentPhase(once, env, s.intents);
    OrphanPhase(c, env.orders, s.tags);
    PositionPhaseBreaks(Db(c, once.breaks + intents + orphans), env, s.positions);
    Regroup(once.breaks, intents, orphans);
    Regroup(once.breaks, intents + orphans, positions);
  }
}
