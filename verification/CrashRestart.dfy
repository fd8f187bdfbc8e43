// The restart guarantees: a pass computes the same repair in any scan order,
// completes exactly when every fill can be recorded, and after any number of
// crashes a full pass ends where an uninterrupted one would have.

module CrashRestart {
  import opened Broker
  import opened Recovery
  import opened Confluence
  import opened RecoveryConfluence
  import opened RecoveryRuns

  ghost predicate Recordable(c: Core, orders: seq<BrokerOrder>) {
    forall i :: !Raises(c, orders, i)
  }

  lemma StillRecordable(c: Core, orders: seq<BrokerOrder>, i: Id, j: Id)
    requires Attributable(c, orders) && !Raises(c, orders, i)
    ensures Raises(ReconcileIntent(c, orders, i), orders, j) <==> Raises(c, orders, j)
  {
    if i != j {
      IntentIgnoresOthers(c, orders, i, j);
    } else if InDoubt(c, i) && Judge(orders, c.intents[i].tag).Live? {
      LiveOrderSettled(c, orders, i, ResolveWrites(c, orders, i));
    }
  }

  /** Without a raise the intent phase is the fold of its units of work; it raises
      exactly when some scanned intent's fill or row lookup is refused. */
  lemma {:induction false} IntentPhase(db: Db, env: Env, scan: seq<Id>)
    requires Attributable(db.core, env.orders)
    ensures var run := RunIntents(db, env, scan);
      && db.breaks <= run.db.breaks
      && (run.raised <==> exists i :: i in scan && Raises(db.core, env.orders, i))
      && (!run.raised ==> run.db.core == Fold(IntentStep(env.orders), db.core, scan))
    decreases |scan|
  {
    if scan != [] {
      var i, rest, orders := scan[0], scan[1..], env.orders;
      assert scan == [i] + rest;
      if !Raises(db.core, orders, i) {
        var next := Db(ReconcileIntent(db.core, orders, i), db.breaks + IntentBreaks(db.core, orders, i));
        IntentKeepsAttributable(db.core, orders, i);
        forall j ensures Raises(next.core, orders, j) <==> Raises(db.core, orders, j) {
          StillRecordable(db.core, orders, i, j);
        }
        IntentPhase(next, env, rest);
      } else {
        assert i in scan;
      }
    }
  }

  lemma {:induction false} PositionPhase(db: Db, env: Env, scan: seq<Id>)
    ensures RunPositions(db, env, scan).core == Fold(PositionStep(env), db.core, scan)
    ensures db.breaks <= RunPositions(db, env, scan).breaks
    decreases |scan|
  {
    if scan != [] {
      PositionPhase(
        Db(ReconcilePosition(db.core, env, scan[0]), db.breaks + PositionBreaks(db.core, env, scan[0])),
        env, scan[1..]);
    }
  }

  /** What a pass's three queries may return, in whatever order. */
  datatype Scans = Scans(intents: seq<Id>, tags: seq<string>, positions: seq<Id>)

  ghost predicate Scanned(db: Db, env: Env, s: Scans) {
    && IntentScan(db.core, s.intents) && TagScan(env, s.tags)
    && Distinct(s.positions) && PositionScan(RunIntents(db, env, s.intents).db.core, s.positions)
  }

  ghost function Pass(db: Db, env: Env, s: Scans): Run {
    Reconcile(db, env, s.intents, s.tags, s.positions)
  }

  /** A pass never guesses: it completes exactly when every in-doubt intent can be recorded. */
  lemma PassCompletesIff(db: Db, env: Env, s: Scans)
    requires Attributable(db.core, env.orders) && Scanned(db, env, s)
    ensures !Pass(db, env, s).raised <==> Recordable(db.core, env.orders)
  {
    IntentPhase(db, env, s.intents);
  }

  /** And then its repair is the same whatever the scan order. */
  lemma PassIsDeterministic(db: Db, env: Env, s: Scans)
    requires Sane(db.core, env.orders) && Scanned(db, env, s)
    ensures !Pass(db, env, s).raised <==> Recordable(db.core, env.orders)
    ensures !Pass(db, env, s).raised ==> Pass(db, env, s).db.core == Repaired(db.core, env)
  {
    PassCompletesIff(db, env, s);
    IntentPhase(db, env, s.intents);
    if Recordable(db.core, env.orders) {
      var mid := RunIntents(db, env, s.intents).db;
      SettlesAnyOrder(db.core, env.orders, s.intents);
      PositionPhase(Db(mid.core, mid.breaks + OrphanBreaks(mid.core, env.orders, s.tags)), env, s.positions);
      PositionsCommute(env);
      SamePermutation(AnyCore(), PositionStep(env), mid.core, s.positions, Listed(UnfinishedIds(mid.core)));
    }
  }

  // ------------------------------------------------------------------- crashes

  /** The committed database when the process dies after `k` of the pass's units:
      one per scanned intent, one for the orphan tags, one per scanned position. */
  ghost function AfterUnits(db: Db, env: Env, s: Scans, k: nat): Db {
    if k <= |s.intents| then RunIntents(db, env, s.intents[..k]).db
    else
      var mid := RunIntents(db, env, s.intents).db;
      var m := k - |s.intents| - 1;
      RunPositions(
        Db(mid.core, mid.breaks + OrphanBreaks(mid.core, env.orders, s.tags)), env,
        s.positions[..if m <= |s.positions| then m else |s.positions|])
  }

  /** No entry that the intent phase leaves ready to finalize has a flat leg. */
  ghost predicate EntriesLive(c: Core, env: Env) {
    NoLateFlat(Settled(c, env.orders), env)
  }

  lemma {:induction false} RecordableAfter(c: Core, orders: seq<BrokerOrder>, ids: seq<Id>)
    requires Attributable(c, orders) && Recordable(c, orders)
    ensures Recordable(Fold(IntentStep(orders), c, ids), orders)
    decreases ids
  {
    if ids != [] {
      IntentKeepsAttributable(c, orders, ids[0]);
      forall j ensures !Raises(ReconcileIntent(c, orders, ids[0]), orders, j) { StillRecordable(c, orders, ids[0], j); }
      RecordableAfter(ReconcileIntent(c, orders, ids[0]), orders, ids[1..]);
    }
  }

  lemma SettledRecordable(c: Core, d: Core, orders: seq<BrokerOrder>)
    requires Attributable(c, orders) && Attributable(d, orders) && Recordable(c, orders)
    requires c.intents == d.intents && c.orders == d.orders
    ensures Recordable(d, orders)
  {
    forall i ensures !Raises(d, orders, i) {
      if i in c.intents { SameRowsSameWrites(c, d, orders, i); }
    }
  }

  lemma {:induction false} PositionRunKeepsRows(c: Core, env: Env, ids: seq<Id>)
    ensures var d := Fold(PositionStep(env), c, ids); d.intents == c.intents && d.orders == c.orders
    decreases ids
  {
    if ids != [] {
      PositionIsLocal(c, env, 0, ids[0]);
      PositionRunKeepsRows(ReconcilePosition(c, env, ids[0]), env, ids[1..]);
    }
  }

  /** A crash in the intent phase loses nothing: the rest of the work is still found. */
  lemma CrashAmongIntents(db: Db, env: Env, ids: seq<Id>)
    requires Sane(db.core, env.orders) && Recordable(db.core, env.orders)
    ensures var d := RunIntents(db, env, ids).db.core;
      && Sane(d, env.orders) && Recordable(d, env.orders)
      && Settled(d, env.orders) == Settled(db.core, env.orders)
  {
    IntentPhase(db, env, ids);
    DoubtOnlyShrinks(db.core, env.orders, ids, 0);
    RecordableAfter(db.core, env.orders, ids);
    SettlesAfterPrefix(db.core, env.orders, ids);
  }

  /** A crash in the position phase: the positions already moved stay where they are. */
  lemma CrashAmongPositions(c: Core, env: Env, done: seq<Id>)
    requires Sane(c, env.orders) && Recordable(c, env.orders) && IntentsSettled(c, env.orders)
    requires forall p | p in done :: Unfinished(c, p)
    ensures var d := Fold(PositionStep(env), c, done);
      && Sane(d, env.orders) && Recordable(d, env.orders) && Settled(d, env.orders) == d
      && (NoLateFlat(c, env) ==> NoLateFlat(d, env) && Repaired(d, env) == Repaired(c, env))
  {
    var f, d := PositionStep(env), Fold(PositionStep(env), c, done);
    PositionRunKeepsSettled(c, env, done);
    PositionRunKeepsRows(c, env, done);
    SettledRecordable(c, d, env.orders);
    SettledUnchanged(c, env.orders);
    SettledUnchanged(d, env.orders);
    if NoLateFlat(c, env) {
      PositionsConfluent(env);
      FoldKeeps(NoLateFlatFor(env), f, c, done);
      var rest := Listed(UnfinishedIds(d));
      FoldConcat(f, c, done, rest);
      forall p ensures p in done + rest <==> p in Listed(UnfinishedIds(c)) {
        UnfinishedOnlyShrinks(c, env, done, p);
      }
      SameWork(NoLateFlatFor(env), f, c, done + rest, Listed(UnfinishedIds(c)));
    }
  }

  /** `d` settles to what steps of unfinished positions make of `c` settled. */
  ghost predicate Reached(c: Core, d: Core, env: Env, done: seq<Id>) {
    && Sane(d, env.orders) && Recordable(d, env.orders)
    && (forall p :: p in done ==> Unfinished(Settled(c, env.orders), p))
    && Settled(d, env.orders) == Fold(PositionStep(env), Settled(c, env.orders), done)
  }

  /** What a crash leaves: every intent settles as before, and some positions have moved. */
  lemma OneCrash(db: Db, env: Env, s: Scans, k: nat) returns (done: seq<Id>)
    requires Sane(db.core, env.orders) && Recordable(db.core, env.orders) && Scanned(db, env, s)
    ensures Reached(db.core, AfterUnits(db, env, s, k).core, env, done)
  {
    if k <= |s.intents| {
      CrashAmongIntents(db, env, s.intents[..k]);
      done := [];
    } else {
      var m := k - |s.intents| - 1;
      done := s.positions[..if m <= |s.positions| then m else |s.positions|];
      CrashAfterIntents(db, env, s, done);
    }
  }

  lemma CrashAfterIntents(db: Db, env: Env, s: Scans, done: seq<Id>)
    requires Sane(db.core, env.orders) && Recordable(db.core, env.orders) && Scanned(db, env, s) && done <= s.positions
    ensures var mid := RunIntents(db, env, s.intents).db;
      var start := Db(mid.core, mid.breaks + OrphanBreaks(mid.core, env.orders, s.tags));
      Reached(db.core, RunPositions(start, env, done).core, env, done)
  {
    var mid := RunIntents(db, env, s.intents).db;
    CrashAmongIntents(db, env, s.intents);
    IntentPhase(db, env, s.intents);
    SettlesAnyOrder(db.core, env.orders, s.intents);
    SettledIsSettled(db.core, env.orders);
    PositionPhase(Db(mid.core, mid.breaks + OrphanBreaks(mid.core, env.orders, s.tags)), env, done);
    forall p | p in done ensures Unfinished(mid.core, p) { assert p in s.positions; }
    CrashAmongPositions(mid.core, env, done);
  }

  lemma ReachedRepairsAlike(c: Core, d: Core, env: Env, done: seq<Id>)
    requires Sane(c, env.orders) && Recordable(c, env.orders) && EntriesLive(c, env) && Reached(c, d, env, done)
    ensures EntriesLive(d, env) && Repaired(d, env) == Repaired(c, env)
  {
    var mid := Settled(c, env.orders);
    SettledIsSettled(c, env.orders);
    RecordableAfter(c, env.orders, Listed(InDoubtIds(c)));
    SettledUnchanged(mid, env.orders);
    CrashAmongPositions(mid, env, done);
  }

  /** One crash anywhere in a pass leaves the eventual repair unchanged. */
  lemma CrashKeepsRepair(db: Db, env: Env, s: Scans, k: nat)
    requires Sane(db.core, env.orders) && Recordable(db.core, env.orders) && EntriesLive(db.core, env)
    requires Scanned(db, env, s)
    ensures var d := AfterUnits(db, env, s, k).core;
      && Sane(d, env.orders) && Recordable(d, env.orders) && EntriesLive(d, env)
      && Repaired(d, env) == Repaired(db.core, env)
  {
    var done := OneCrash(db, env, s, k);
    ReachedRepairsAlike(db.core, AfterUnits(db, env, s, k).core, env, done);
  }

  /** Any number of interrupted passes, one after the other. */
  datatype Crash = Crash(scans: Scans, units: nat)

  ghost function AfterCrashes(db: Db, env: Env, crashes: seq<Crash>): Db
    decreases |crashes|
  {
    if crashes == [] then db
    else AfterCrashes(AfterUnits(db, env, crashes[0].scans, crashes[0].units), env, crashes[1..])
  }

  ghost predicate CrashesScanned(db: Db, env: Env, crashes: seq<Crash>)
    decreases |crashes|
  {
    crashes != [] ==>
      Scanned(db, env, crashes[0].scans)
      && CrashesScanned(AfterUnits(db, env, crashes[0].scans, crashes[0].units), env, crashes[1..])
  }

  lemma {:induction false} CrashesKeepRepair(db: Db, env: Env, crashes: seq<Crash>)
    requires Sane(db.core, env.orders) && Recordable(db.core, env.orders) && EntriesLive(db.core, env)
    requires CrashesScanned(db, env, crashes)
    ensures var d := AfterCrashes(db, env, crashes).core;
      && Sane(d, env.orders) && Recordable(d, env.orders) && EntriesLive(d, env)
      && Repaired(d, env) == Repaired(db.core, env)
    decreases |crashes|
  {
    if crashes != [] {
      CrashKeepsRepair(db, env, crashes[0].scans, crashes[0].units);
      CrashesKeepRepair(AfterUnits(db, env, crashes[0].scans, crashes[0].units), env, crashes[1..]);
    }
  }

  /** Crash as often as you like, then let one pass finish: the repair is the one
      an uninterrupted pass makes, whatever order either of them scans in. */
  lemma CrashRestartFixpoint(db: Db, env: Env, crashes: seq<Crash>, last: Scans, undisturbed: Scans)
    requires Sane(db.core, env.orders) && Recordable(db.core, env.orders) && EntriesLive(db.core, env)
    requires CrashesScanned(db, env, crashes)
    requires Scanned(AfterCrashes(db, env, crashes), env, last) && Scanned(db, env, undisturbed)
    ensures var restarted, once := Pass(AfterCrashes(db, env, crashes), env, last), Pass(db, env, undisturbed);
      !restarted.raised && !once.raised && restarted.db.core == once.db.core
  {
    CrashesKeepRepair(db, env, crashes);
    PassIsDeterministic(AfterCrashes(db, env, crashes), env, last);
    PassIsDeterministic(db, env, undisturbed);
  }

  // ------------------------------------------------------- a fill that is refused

  lemma {:induction false} RefusalsPersist(db: Db, env: Env, scan: seq<Id>, j: Id)
    requires Attributable(db.core, env.orders)
    ensures var d := RunIntents(db, env, scan).db.core;
      Attributable(d, env.orders) && (Raises(d, env.orders, j) <==> Raises(db.core, env.orders, j))
    decreases |scan|
  {
    if scan != [] && !Raises(db.core, env.orders, scan[0]) {
      IntentKeepsAttributable(db.core, env.orders, scan[0]);
      StillRecordable(db.core, env.orders, scan[0], j);
      RefusalsPersist(
        Db(ReconcileIntent(db.core, env.orders, scan[0]), db.breaks + IntentBreaks(db.core, env.orders, scan[0])),
        env, scan[1..], j);
    }
  }

  /** A pass stopped by a refused fill stops every later pass over the same
      snapshot too, so its orphan tags and positions are never examined. */
  lemma RefusalBlocksEveryPass(db: Db, env: Env, first: Scans, second: Scans)
    requires Attributable(db.core, env.orders) && Scanned(db, env, first) && Pass(db, env, first).raised
    requires Scanned(Pass(db, env, first).db, env, second)
    ensures Pass(Pass(db, env, first).db, env, second).raised
  {
    PassCompletesIff(db, env, first);
    var j :| Raises(db.core, env.orders, j);
    RefusalsPersist(db, env, first.intents, j);
    PassCompletesIff(Pass(db, env, first).db, env, second);
  }

  ghost predicate IdKnown(c: Core, b: BrokerOrder) {
    exists k :: HasBrokerId(c.orders, k, b.id)
  }

  /** More than the row's quantity, or at a negative price: the broker's, or the row's
      own where the broker names none. */
  predicate TooMuch(quantity: nat, price: Option<real>, b: BrokerOrder) {
    b.filled > quantity || PriceOr(b.price, price) < 0.0
  }

  /** The fill does not fit the row it would be recorded on: the one with the
      order's id, else the one with its tag, else a new one of the intent's size. */
  ghost predicate Misfits(c: Core, i: Id, b: BrokerOrder)
    requires i in c.intents
  {
    || (exists k :: HasBrokerId(c.orders, k, b.id) && TooMuch(c.orders[k].quantity, c.orders[k].price, b))
    || (!IdKnown(c, b) && exists k ::
          HasTag(c.orders, k, b.tag) && TooMuch(c.orders[k].quantity, c.orders[k].price, b))
    || (!IdKnown(c, b) && (forall k :: !HasTag(c.orders, k, b.tag)) && TooMuch(c.intents[i].quantity, None, b))
  }

  /** A unit of work is refused in exactly two situations: no row has the order's id
      and several have its tag, or the fill does not fit its row. */
  lemma RefusedIff(c: Core, orders: seq<BrokerOrder>, i: Id)
    requires RowsSane(c, orders) && InDoubt(c, i) && Judge(orders, c.intents[i].tag).Single()
    ensures var v := Judge(orders, c.intents[i].tag);
      Raises(c, orders, i) <==>
        (!IdKnown(c, v.b) && Ambiguous(c.orders, v.b.tag)) || (v.Fills? && Misfits(c, i, v.b))
  {
    JudgedOrder(orders, c.intents[i].tag);
    RowKeyIsOwn(c, orders, i);
    if Locatable(c, Judge(orders, c.intents[i].tag).b) {
      ResolvesOwnRow(c, orders, i);
      FitsIff(c, orders, i);
    }
  }

  lemma FitsIff(c: Core, orders: seq<BrokerOrder>, i: Id)
    requires RowsSane(c, orders) && i in c.intents && Judge(orders, c.intents[i].tag).Single()
    requires Locatable(c, Judge(orders, c.intents[i].tag).b)
    ensures var b := Judge(orders, c.intents[i].tag).b; Fits(AckedRow(c, i, b), b) <==> !Misfits(c, i, b)
  {
    JudgedOrder(orders, c.intents[i].tag);
    RowKeyIsOwn(c, orders, i);
    var b := Judge(orders, c.intents[i].tag).b;
    var key := RowKey(c, i, b);
    if k :| HasBrokerId(c.orders, k, b.id) {
      assert key == k;
    } else if k :| HasTag(c.orders, k, b.tag) {
      assert HasTag(c.orders, key, b.tag);
      forall l | HasTag(c.orders, l, b.tag) ensures l == key {}
    }
  }

  /** A lost acknowledgement after two rejected attempts: with two rows under the tag
      and none under the order's id, no pass over the snapshot ever gets through. */
  lemma AmbiguousTagBlocksEveryPass(db: Db, env: Env, i: Id, first: Scans, second: Scans)
    requires Attributable(db.core, env.orders) && InDoubt(db.core, i)
    requires Judge(env.orders, db.core.intents[i].tag).Single()
    requires !IdKnown(db.core, Judge(env.orders, db.core.intents[i].tag).b)
    requires Ambiguous(db.core.orders, db.core.intents[i].tag)
    requires Scanned(db, env, first) && Scanned(Pass(db, env, first).db, env, second)
    ensures Pass(db, env, first).raised && Pass(Pass(db, env, first).db, env, second).raised
  {
    assert Raises(db.core, env.orders, i);
    PassCompletesIff(db, env, first);
    RefusalBlocksEveryPass(db, env, first, second);
  }
}
