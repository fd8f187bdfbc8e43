// What a completed pass guarantees about fills: none is dropped, and an entry is
// aborted to CLOSED only when no finished order filled any of its legs.

module RecoverySafety {
  import opened Broker
  import opened Recovery
  import opened RecoveryConfluence
  import opened CrashRestart
  import opened RepeatPass

  // ------------------------------------------------------------ no fill is lost

  /** The fill of `b` is on an order row and its intent is confirmed. */
  ghost predicate FillRecorded(c: Core, i: Id, b: BrokerOrder) {
    && i in c.intents && c.intents[i].tag == b.tag && c.intents[i].status.Confirmed?
    && exists k :: HasTag(c.orders, k, b.tag) && c.orders[k].filled == b.filled && c.orders[k].status.Complete?
  }

  ghost predicate NamedIn(breaks: seq<Break>, b: BrokerOrder) {
    exists br :: br in breaks && br.detail.OrderIds? && b.id in br.detail.ids
  }

  predicate FinishedFill(b: BrokerOrder) {
    b.tag != "" && b.status.Terminal() && b.filled > 0
  }

  lemma {:induction false} OrderIdsListed(orders: seq<BrokerOrder>, b: BrokerOrder)
    requires b in orders
    ensures b.id in OrderIdsOf(orders)
  {
    if orders[0] != b {
      assert orders == [orders[0]] + orders[1..];
      OrderIdsListed(orders[1..], b);
    }
  }

  lemma FinishedFillJudged(orders: seq<BrokerOrder>, b: BrokerOrder)
    requires b in orders && FinishedFill(b)
    ensures var v := Judge(orders, b.tag); v == Fills(b) || (v.Duplicated? && b.id in v.ids)
  {
    MatchesSound(orders, b.tag);
    assert b in Matches(orders, b.tag);
    OrderIdsListed(Matches(orders, b.tag), b);
  }

  lemma OwnUnitAccounts(c: Core, orders: seq<BrokerOrder>, i: Id, b: BrokerOrder)
    requires Attributable(c, orders) && InDoubt(c, i) && !Raises(c, orders, i)
    requires b in orders && FinishedFill(b) && c.intents[i].tag == b.tag
    ensures FillRecorded(ReconcileIntent(c, orders, i), i, b) || NamedIn(IntentBreaks(c, orders, i), b)
  {
    FinishedFillJudged(orders, b);
    if Judge(orders, b.tag).Fills? {
      ResolvesOwnRow(c, orders, i);
      assert HasTag(ReconcileIntent(c, orders, i).orders, ResolveWrites(c, orders, i).key, b.tag);
    } else {
      assert IntentBreaks(c, orders, i)[0] in IntentBreaks(c, orders, i);
    }
  }

  lemma OtherUnitsKeepFill(c: Core, orders: seq<BrokerOrder>, x: Id, i: Id, b: BrokerOrder)
    requires Attributable(c, orders) && FillRecorded(c, i, b)
    ensures FillRecorded(ReconcileIntent(c, orders, x), i, b)
  {
    if InDoubt(c, x) {
      IntentIgnoresOthers(c, orders, x, i);
      var k :| HasTag(c.orders, k, b.tag) && c.orders[k].filled == b.filled && c.orders[k].status.Complete?;
      OtherRowsKept(c, orders, x, k);
    }
  }

  lemma {:induction false} IntentPhaseAccounts(db: Db, env: Env, scan: seq<Id>, n: nat, i: Id, b: BrokerOrder)
    requires Attributable(db.core, env.orders) && !RunIntents(db, env, scan).raised && n <= |db.breaks|
    requires b in env.orders && FinishedFill(b)
    requires (i in scan && InDoubt(db.core, i) && db.core.intents[i].tag == b.tag)
      || FillRecorded(db.core, i, b) || NamedIn(db.breaks[n..], b)
    ensures var d := RunIntents(db, env, scan).db;
      db.breaks <= d.breaks && (FillRecorded(d.core, i, b) || NamedIn(d.breaks[n..], b))
    decreases |scan|
  {
    if scan != [] {
      var x, orders := scan[0], env.orders;
      var more := IntentBreaks(db.core, orders, x);
      var next := Db(ReconcileIntent(db.core, orders, x), db.breaks + more);
      assert next.breaks[n..] == db.breaks[n..] + more;
      IntentKeepsAttributable(db.core, orders, x);
      if NamedIn(db.breaks[n..], b) {
        assert NamedIn(next.breaks[n..], b);
      } else if FillRecorded(db.core, i, b) {
        OtherUnitsKeepFill(db.core, orders, x, i, b);
      } else if x == i {
        OwnUnitAccounts(db.core, orders, i, b);
        if NamedIn(more, b) { assert NamedIn(next.breaks[n..], b); }
      } else {
        IntentIgnoresOthers(db.core, orders, x, i);
        assert scan == [x] + scan[1..];
      }
      IntentPhaseAccounts(next, env, scan[1..], n, i, b);
    }
  }

  lemma {:induction false} BreaksOnlyGrow(db: Db, env: Env, scan: seq<Id>)
    ensures db.breaks <= RunIntents(db, env, scan).db.breaks
    ensures RunIntents(db, env, scan).db.core.intents.Keys == db.core.intents.Keys
    ensures forall i | i in db.core.intents ::
      RunIntents(db, env, scan).db.core.intents[i].tag == db.core.intents[i].tag
    decreases |scan|
  {
    if scan != [] && !Raises(db.core, env.orders, scan[0]) {
      BreaksOnlyGrow(
        Db(ReconcileIntent(db.core, env.orders, scan[0]), db.breaks + IntentBreaks(db.core, env.orders, scan[0])),
        env, scan[1..]);
    }
  }

  lemma NamingLasts(n: nat, x: seq<Break>, more: seq<Break>, y: seq<Break>, b: BrokerOrder)
    requires n <= |x| && x + more <= y
    requires NamedIn(x[n..] + more, b)
    ensures NamedIn(y[n..], b)
  {
    var tail := x[n..] + more;
    assert (x + more)[n..] == tail;
    var br :| br in tail && br.detail.OrderIds? && b.id in br.detail.ids;
    var at :| 0 <= at < |tail| && tail[at] == br;
    assert y[n..][at] == y[n + at] == (x + more)[n + at] == br;
  }

  /** Every finished, tagged broker order with a fill whose tag has no intent, or
      an in-doubt one, is on an order row with that very fill or named in a break. */
  lemma NoFillIsLost(db: Db, env: Env, s: Scans, b: BrokerOrder)
    requires Attributable(db.core, env.orders) && Scanned(db, env, s) && !Pass(db, env, s).raised
    requires b in env.orders && FinishedFill(b)
    requires forall i | i in db.core.intents && db.core.intents[i].tag == b.tag :: InDoubt(db.core, i)
    ensures var d := Pass(db, env, s).db;
      && db.breaks <= d.breaks
      && ((exists i :: FillRecorded(d.core, i, b)) || NamedIn(d.breaks[|db.breaks|..], b))
  {
    var mid := RunIntents(db, env, s.intents).db;
    var orphans := OrphanBreaks(mid.core, env.orders, s.tags);
    BreaksOnlyGrow(db, env, s.intents);
    PositionPhase(Db(mid.core, mid.breaks + orphans), env, s.positions);
    PositionRunKeepsRows(mid.core, env, s.positions);
    var d, n := Pass(db, env, s).db, |db.breaks|;
    if i :| i in db.core.intents && db.core.intents[i].tag == b.tag {
      IntentPhaseAccounts(db, env, s.intents, n, i, b);
      if NamedIn(mid.breaks[n..], b) {
        assert NamedIn(mid.breaks[n..] + orphans, b);
        NamingLasts(n, mid.breaks, orphans, d.breaks, b);
      } else {
        assert FillRecorded(d.core, i, b);
      }
    } else {
      OrphanNamed(mid.core, env, s.tags, b);
      assert NamedIn(mid.breaks[n..] + orphans, b);
      NamingLasts(n, mid.breaks, orphans, d.breaks, b);
    }
  }

  lemma OrphanNamed(c: Core, env: Env, tags: seq<string>, b: BrokerOrder)
    requires TagScan(env, tags) && b in env.orders && b.tag != ""
    requires forall i | i in c.intents :: c.intents[i].tag != b.tag
    ensures NamedIn(OrphanBreaks(c, env.orders, tags), b)
  {
    OrphanPhase(c, env.orders, tags);
    MatchesSound(env.orders, b.tag);
    OrderIdsListed(Matches(env.orders, b.tag), b);
    var br := OrphanBreak(c, env.orders, b.tag)[0];
    assert b.tag in tags && br in OrphanBreaksIn(c, env.orders)(b.tag);
    FlatMembers(OrphanBreaksIn(c, env.orders), tags, br);
  }

  // ---------------------------------------------------------------- abort safety

  /** Leg `t` of `p` is open, or the position has been taken to ERROR. */
  ghost predicate Exposed(c: Core, p: Id, t: Id) {
    && p in c.positions && t in c.trades && c.trades[t].positionId == p
    && (c.positions[p].state.Errored? || (c.positions[p].state.EntryPending? && c.trades[t].status.LegOpen?))
  }

  ghost predicate Opening(c: Core, p: Id, t: Id) {
    && p in c.positions && t in c.trades && c.trades[t].positionId == p
    && (c.positions[p].state.Errored? || c.positions[p].state.EntryPending?)
    && (c.trades[t].status.LegPending? || c.trades[t].status.LegOpen?)
  }

  /** No in-doubt exit of the leg turns out to be filled. */
  ghost predicate NoExitFill(c: Core, orders: seq<BrokerOrder>, t: Id) {
    forall x | FillInDoubt(c, orders, x) && c.intents[x].tradeId == t :: c.intents[x].purpose.Entry?
  }

  lemma ExitFillsOnlyShrink(c: Core, orders: seq<BrokerOrder>, x: Id, t: Id)
    requires NoExitFill(c, orders, t)
    ensures NoExitFill(ReconcileIntent(c, orders, x), orders, t)
  {
    var d := ReconcileIntent(c, orders, x);
    forall y | FillInDoubt(d, orders, y)
      ensures FillInDoubt(c, orders, y) && d.intents[y].tradeId == c.intents[y].tradeId &&
        d.intents[y].purpose == c.intents[y].purpose {}
  }

  lemma UnitKeepsOpening(c: Core, orders: seq<BrokerOrder>, x: Id, p: Id, t: Id)
    requires Opening(c, p, t) && NoExitFill(c, orders, t)
    ensures var d := ReconcileIntent(c, orders, x);
      Opening(d, p, t) && NoExitFill(d, orders, t) && (Exposed(c, p, t) ==> Exposed(d, p, t))
  {
    ExitFillsOnlyShrink(c, orders, x, t);
  }

  lemma OwnUnitExposes(c: Core, orders: seq<BrokerOrder>, i: Id, p: Id, t: Id, b: BrokerOrder)
    requires Opening(c, p, t) && NoExitFill(c, orders, t)
    requires InDoubt(c, i) && c.intents[i].tradeId == t && !Raises(c, orders, i)
    requires b in orders && FinishedFill(b) && c.intents[i].tag == b.tag
    ensures Exposed(ReconcileIntent(c, orders, i), p, t)
  {
    FinishedFillJudged(orders, b);
  }

  lemma {:induction false} IntentPhaseExposes(
    db: Db, env: Env, scan: seq<Id>, i: Id, p: Id, t: Id, b: BrokerOrder)
    requires Attributable(db.core, env.orders) && !RunIntents(db, env, scan).raised
    requires Opening(db.core, p, t) && NoExitFill(db.core, env.orders, t)
    requires b in env.orders && FinishedFill(b)
    requires Exposed(db.core, p, t) || (i in scan && Waits(db.core, i, t, b))
    ensures Exposed(RunIntents(db, env, scan).db.core, p, t)
    decreases |scan|
  {
    if scan != [] {
      var x := scan[0];
      assert scan == [x] + scan[1..];
      UnitExposesOrWaits(db.core, env.orders, x, i, p, t, b);
      var next := Db(ReconcileIntent(db.core, env.orders, x), db.breaks + IntentBreaks(db.core, env.orders, x));
      IntentPhaseExposes(next, env, scan[1..], i, p, t, b);
    }
  }

  ghost predicate Waits(c: Core, i: Id, t: Id, b: BrokerOrder) {
    InDoubt(c, i) && c.intents[i].tradeId == t && c.intents[i].tag == b.tag
  }

  lemma UnitExposesOrWaits(c: Core, orders: seq<BrokerOrder>, x: Id, i: Id, p: Id, t: Id, b: BrokerOrder)
    requires Attributable(c, orders) && !Raises(c, orders, x) && Opening(c, p, t) && NoExitFill(c, orders, t)
    requires b in orders && FinishedFill(b) && (Exposed(c, p, t) || Waits(c, i, t, b))
    ensures var d := ReconcileIntent(c, orders, x);
      && Attributable(d, orders) && Opening(d, p, t) && NoExitFill(d, orders, t)
      && (Exposed(d, p, t) || (x != i && Waits(d, i, t, b)))
  {
    IntentKeepsAttributable(c, orders, x);
    UnitKeepsOpening(c, orders, x, p, t);
    if !Exposed(c, p, t) {
      if x == i {
        OwnUnitExposes(c, orders, i, p, t, b);
      } else {
        IntentIgnoresOthers(c, orders, x, i);
      }
    }
  }

  /** An entry aborted to CLOSED never had a finished order with a fill under an
      in-doubt entry intent of a pending leg, unless an in-doubt exit of that leg was
      filled too: any other fill it overlooks is a live order's. */
  lemma AbortIsSafe(db: Db, env: Env, s: Scans, p: Id, t: Id, i: Id, b: BrokerOrder)
    requires Attributable(db.core, env.orders) && Scanned(db, env, s) && !Pass(db, env, s).raised
    requires p in db.core.positions && db.core.positions[p].state.EntryPending?
    requires var d := Pass(db, env, s).db.core; p in d.positions && d.positions[p].state.Closed?
    requires t in db.core.trades && db.core.trades[t].positionId == p && db.core.trades[t].status.LegPending?
    requires InDoubt(db.core, i) && db.core.intents[i].tradeId == t && NoExitFill(db.core, env.orders, t)
    requires b in env.orders && b.tag != "" && b.tag == db.core.intents[i].tag
    ensures b.status.Terminal() ==> b.filled == 0
  {
    if FinishedFill(b) {
      IntentPhaseExposes(db, env, s.intents, i, p, t, b);
      var mid := RunIntents(db, env, s.intents).db;
      PositionPhase(Db(mid.core, mid.breaks + OrphanBreaks(mid.core, env.orders, s.tags)), env, s.positions);
      PositionOutcome(mid.core, env, s.positions, p);
      ExposedNotClosed(mid.core, env, p, t);
    }
  }

  lemma ExposedNotClosed(c: Core, env: Env, p: Id, t: Id)
    requires Exposed(c, p, t)
    ensures !ReconcilePosition(c, env, p).positions[p].state.Closed?
  {
    assert c.trades[t].status.LegOpen? ==> t in LegsIn(Legs(c.trades, p), LegOpen);
  }

  /** Why that order must be finished: an order still live at the broker is left
      alone whatever it has filled so far, and the entry is aborted over it. */
  lemma {:induction false} LiveOrdersLeaveLegs(db: Db, env: Env, scan: seq<Id>, p: Id)
    requires UntouchedEntry(db.core, env.orders, p) && !RunIntents(db, env, scan).raised
    ensures UntouchedEntry(RunIntents(db, env, scan).db.core, env.orders, p)
    decreases |scan|
  {
    if scan != [] {
      LiveUnitLeavesLegs(db.core, env.orders, scan[0], p);
      var next := Db(ReconcileIntent(db.core, env.orders, scan[0]),
        db.breaks + IntentBreaks(db.core, env.orders, scan[0]));
      LiveOrdersLeaveLegs(next, env, scan[1..], p);
    }
  }

  lemma LiveUnitLeavesLegs(c: Core, orders: seq<BrokerOrder>, x: Id, p: Id)
    requires UntouchedEntry(c, orders, p)
    ensures UntouchedEntry(ReconcileIntent(c, orders, x), orders, p)
  {
    var d := ReconcileIntent(c, orders, x);
    UnitKeepsOwners(c, orders, x);
    forall t | t in c.trades && c.trades[t].positionId == p ensures d.trades[t] == c.trades[t] {
      UnitSparesLeg(c, orders, x, t);
    }
    assert Legs(d.trades, p) == Legs(c.trades, p);
    UnitSparesPosition(c, orders, x, p);
    forall i | InDoubt(d, i) && d.intents[i].tradeId in d.trades && d.trades[d.intents[i].tradeId].positionId == p
      ensures Judge(orders, d.intents[i].tag).Live?
    {
      assert InDoubt(c, i);
    }
  }

  lemma UnitKeepsOwners(c: Core, orders: seq<BrokerOrder>, x: Id)
    ensures var d := ReconcileIntent(c, orders, x);
      && d.trades.Keys == c.trades.Keys
      && (forall t :: t in c.trades ==> d.trades[t].positionId == c.trades[t].positionId)
      && forall y :: InDoubt(d, y) ==> InDoubt(c, y) && d.intents[y] == c.intents[y].(status := d.intents[y].status)
  {
  }

  lemma UnitSparesLeg(c: Core, orders: seq<BrokerOrder>, x: Id, t: Id)
    requires t in c.trades
    requires InDoubt(c, x) && c.intents[x].tradeId == t ==> Judge(orders, c.intents[x].tag).Live?
    ensures var d := ReconcileIntent(c, orders, x); t in d.trades && d.trades[t] == c.trades[t]
  {
  }

  lemma UnitSparesPosition(c: Core, orders: seq<BrokerOrder>, x: Id, p: Id)
    requires UntouchedEntry(c, orders, p)
    ensures var d := ReconcileIntent(c, orders, x); p in d.positions && d.positions[p] == c.positions[p]
  {
  }

  ghost predicate UntouchedEntry(c: Core, orders: seq<BrokerOrder>, p: Id) {
    && p in c.positions && c.positions[p].state.EntryPending?
    && LegsIn(Legs(c.trades, p), LegOpen) == {}
    && (forall i ::
          InDoubt(c, i) && c.intents[i].tradeId in c.trades && c.trades[c.intents[i].tradeId].positionId == p ==>
            Judge(orders, c.intents[i].tag).Live?)
  }

  lemma LiveFillsDoNotStopAbort(db: Db, env: Env, s: Scans, p: Id)
    requires UntouchedEntry(db.core, env.orders, p) && Scanned(db, env, s) && !Pass(db, env, s).raised
    ensures var d := Pass(db, env, s).db.core; p in d.positions && d.positions[p].state.Closed?
  {
    LiveOrdersLeaveLegs(db, env, s.intents, p);
    var mid := RunIntents(db, env, s.intents).db;
    PositionPhase(Db(mid.core, mid.breaks + OrphanBreaks(mid.core, env.orders, s.tags)), env, s.positions);
    PositionOutcome(mid.core, env, s.positions, p);
  }
}
