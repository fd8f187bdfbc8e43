// What a finished pass leaves on the order rows, read off the orderbook: the row of an
// intent with one order at the broker carries that order's answer, and no other row changes.

module RecoveryRows {
  import opened Broker
  import opened Recovery
  import opened RecoveryConfluence
  import opened CrashRestart
  import opened RecoveryAlarms

  /** The row of the intent's order: the one with the order's id, else the one with the
      intent's tag, else one yet to be created. */
  ghost predicate IsRowOf(c: Core, i: Id, b: BrokerOrder, k: OrderKey)
    requires i in c.intents
  {
    if exists l :: HasBrokerId(c.orders, l, b.id) then HasBrokerId(c.orders, k, b.id)
    else if exists l :: HasTag(c.orders, l, c.intents[i].tag) then HasTag(c.orders, k, c.intents[i].tag)
    else k == Created(i)
  }

  /** The row as it was; one yet to be created starts as a copy of the intent. */
  function RowBefore(c: Core, i: Id, k: OrderKey): OrderRow
    requires i in c.intents
  {
    var it := c.intents[i];
    if k in c.orders then c.orders[k]
    else OrderRow(it.tradeId, Some(i), it.purpose, it.side, it.quantity, 0, None, Pending, None, Some(it.tag))
  }

  predicate SameOrder(was: OrderRow, now: OrderRow) {
    && now.tradeId == was.tradeId && now.intentId == was.intentId && now.purpose == was.purpose
    && now.side == was.side && now.quantity == was.quantity && now.tag == was.tag
  }

  predicate SameFill(was: OrderRow, now: OrderRow) {
    now.filled == was.filled && now.price == was.price
  }

  /** The broker's fill at the broker's price, or where it names none at the row's own. */
  predicate FilledBy(b: BrokerOrder, was: OrderRow, now: OrderRow) {
    && now.status.Complete? && now.filled == b.filled && now.price.Some?
    && (if b.price.Some? && b.price.value != 0.0 then now.price == b.price
        else now.price.value == if was.price.Some? then was.price.value else 0.0)
  }

  /** The broker's answer `b` on the row: its id if the row had none; and, if the order
      is live, nothing more than that it is open; if it ended with a fill, the fill; if
      it ended without, a rejection. */
  predicate RowAnswered(b: BrokerOrder, was: OrderRow, now: OrderRow) {
    && SameOrder(was, now)
    && now.brokerId == (if was.brokerId.Some? then was.brokerId else Some(b.id))
    && match b.status
       case Pending => SameFill(was, now) && now.status == if was.brokerId.Some? then was.status else Open
       case Open => SameFill(was, now) && now.status == if was.brokerId.Some? then was.status else Open
       case Complete => FilledBy(b, was, now)
       case _ => if b.filled > 0 then FilledBy(b, was, now) else SameFill(was, now) && now.status.Rejected?
  }

  /** What the unit of work for `i` writes is on its row, and would be written again. */
  ghost predicate Settled(c: Core, orders: seq<BrokerOrder>, i: Id, w: Writes) {
    && i in c.intents && w.key in c.orders && w.row == Some(c.orders[w.key])
    && HasTag(c.orders, w.key, c.intents[i].tag)
    && (InDoubt(c, i) ==> ResolveWrites(c, orders, i) == w)
  }

  lemma OwnUnitWrites(c: Core, orders: seq<BrokerOrder>, i: Id, w: Writes)
    requires Attributable(c, orders) && InDoubt(c, i) && !Raises(c, orders, i)
    requires Judge(orders, c.intents[i].tag).Single() && w == ResolveWrites(c, orders, i)
    ensures Settled(ReconcileIntent(c, orders, i), orders, i, w)
  {
    NotRefusedLocatable(c, orders, i);
    ResolvesOwnRow(c, orders, i);
    if Judge(orders, c.intents[i].tag).Live? {
      LiveOrderSettled(c, orders, i, w);
    }
  }

  lemma OtherUnitKeepsWrites(c: Core, orders: seq<BrokerOrder>, x: Id, i: Id, w: Writes)
    requires Attributable(c, orders) && x != i && Settled(c, orders, i, w) && !Raises(c, orders, i)
    ensures Settled(ReconcileIntent(c, orders, x), orders, i, w)
  {
    IntentIgnoresOthers(c, orders, x, i);
    if InDoubt(c, x) {
      OtherRowsKept(c, orders, x, w.key);
    }
  }

  lemma {:induction false} RowsAfterIntents(db: Db, env: Env, scan: seq<Id>, i: Id, w: Writes)
    requires Attributable(db.core, env.orders) && !RunIntents(db, env, scan).raised && !Raises(db.core, env.orders, i)
    requires i in db.core.intents && Judge(env.orders, db.core.intents[i].tag).Single()
    requires Settled(db.core, env.orders, i, w)
      || (i in scan && InDoubt(db.core, i) && w == ResolveWrites(db.core, env.orders, i))
    ensures var d := RunIntents(db, env, scan).db.core; w.key in d.orders && w.row == Some(d.orders[w.key])
    decreases |scan|
  {
    if scan != [] {
      var x, orders := scan[0], env.orders;
      assert scan == [x] + scan[1..];
      IntentKeepsAttributable(db.core, orders, x);
      StillRecordable(db.core, orders, x, i);
      IntentUnit(db.core, orders, x, i);
      if x != i {
        IntentIgnoresOthers(db.core, orders, x, i);
        if Settled(db.core, orders, i, w) { OtherUnitKeepsWrites(db.core, orders, x, i, w); }
      } else if InDoubt(db.core, i) {
        OwnUnitWrites(db.core, orders, i, w);
      }
      RowsAfterIntents(AfterIntent(db, env, x), env, scan[1..], i, w);
    }
  }

  lemma WritesAnswer(c: Core, orders: seq<BrokerOrder>, i: Id, m: nat, k: OrderKey)
    requires Attributable(c, orders) && InDoubt(c, i) && !Raises(c, orders, i)
    requires Sole(orders, m, c.intents[i].tag) && IsRowOf(c, i, orders[m], k)
    ensures var w := ResolveWrites(c, orders, i);
      && Judge(orders, c.intents[i].tag).Single() && w.key == k
      && w.row.Some? && RowAnswered(orders[m], RowBefore(c, i, k), w.row.value)
  {
    SoleMatch(orders, c.intents[i].tag, m);
    NotRefusedLocatable(c, orders, i);
    ResolvesOwnRow(c, orders, i);
    RowKeyIsOwn(c, orders, i);
  }

  /** After a finished pass the row of every unresolved intent that has one order at the
      broker carries that order's answer. */
  lemma RowsAnswered(db: Db, env: Env, s: Scans, i: Id, m: nat, k: OrderKey)
    requires Attributable(db.core, env.orders) && Scanned(db, env, s) && !Pass(db, env, s).raised
    requires i in db.core.intents && !Resolved(db.core.intents[i].status)
    requires Sole(env.orders, m, db.core.intents[i].tag) && IsRowOf(db.core, i, env.orders[m], k)
    ensures var d := Pass(db, env, s).db.core;
      k in d.orders && RowAnswered(env.orders[m], RowBefore(db.core, i, k), d.orders[k])
  {
    IntentPhase(db, env, s.intents);
    WritesAnswer(db.core, env.orders, i, m, k);
    RowsAfterIntents(db, env, s.intents, i, ResolveWrites(db.core, env.orders, i));
    PassKeepsRows(db, env, s);
  }

  lemma PassKeepsRows(db: Db, env: Env, s: Scans)
    requires !Pass(db, env, s).raised
    ensures Pass(db, env, s).db.core.orders == RunIntents(db, env, s.intents).db.core.orders
  {
    var run := RunIntents(db, env, s.intents);
    PositionPhase(Db(run.db.core, run.db.breaks + OrphanBreaks(run.db.core, env.orders, s.tags)), env, s.positions);
    PositionRunKeepsRows(run.db.core, env, s.positions);
  }

  // ---- No other row changes ----

  /** Some unresolved intent has its one order recorded on this row. */
  ghost predicate Concerned(c: Core, orders: seq<BrokerOrder>, k: OrderKey) {
    exists i, m: nat :: i in c.intents && !Resolved(c.intents[i].status)
      && Sole(orders, m, c.intents[i].tag) && IsRowOf(c, i, orders[m], k)
  }

  ghost predicate WritesRow(c: Core, orders: seq<BrokerOrder>, i: Id, k: OrderKey) {
    && InDoubt(c, i) && !Raises(c, orders, i)
    && ResolveWrites(c, orders, i).row.Some? && ResolveWrites(c, orders, i).key == k
  }

  lemma OneMatch(orders: seq<BrokerOrder>, tag: string)
    requires |Matches(orders, tag)| == 1
    ensures exists m: nat :: Sole(orders, m, tag) && Matches(orders, tag) == [orders[m]]
  {
    MatchesSound(orders, tag);
    assert Matches(orders, tag)[0] in orders;
    var m: nat :| m < |orders| && orders[m] == Matches(orders, tag)[0];
    assert orders[m] in Matches(orders, tag) && Carries(orders, m, tag);
    forall n: nat | n != m && Carries(orders, n, tag) ensures |Matches(orders, tag)| >= 2 {
      TwoMatches(orders, tag, if m < n then m else n, if m < n then n else m);
    }
    assert Sole(orders, m, tag);
  }

  lemma WriterIsConcerned(c: Core, orders: seq<BrokerOrder>, i: Id, k: OrderKey)
    requires Attributable(c, orders) && WritesRow(c, orders, i, k)
    ensures Concerned(c, orders, k)
  {
    OneMatch(orders, c.intents[i].tag);
    var m: nat :| Sole(orders, m, c.intents[i].tag) && Matches(orders, c.intents[i].tag) == [orders[m]];
    assert Judge(orders, c.intents[i].tag).Single() && Judge(orders, c.intents[i].tag).b == orders[m];
    NotRefusedLocatable(c, orders, i);
    ResolvesOwnRow(c, orders, i);
    RowKeyIsOwn(c, orders, i);
    assert IsRowOf(c, i, orders[m], k);
  }

  lemma UnitKeepsRow(c: Core, orders: seq<BrokerOrder>, x: Id, k: OrderKey)
    requires !WritesRow(c, orders, x, k)
    ensures var d := ReconcileIntent(c, orders, x);
      (k in d.orders <==> k in c.orders) && (k in c.orders ==> d.orders[k] == c.orders[k])
  {
  }

  lemma UnitKeepsWriters(c: Core, orders: seq<BrokerOrder>, x: Id, i: Id, k: OrderKey)
    requires Attributable(c, orders) && !Raises(c, orders, x)
    ensures WritesRow(ReconcileIntent(c, orders, x), orders, i, k) ==> WritesRow(c, orders, i, k)
  {
    var d := ReconcileIntent(c, orders, x);
    if x != i {
      IntentIgnoresOthers(c, orders, x, i);
    } else if WritesRow(d, orders, i, k) {
      IntentUnit(c, orders, i, i);
      if Judge(orders, c.intents[i].tag).Live? {
        LiveOrderSettled(c, orders, i, ResolveWrites(c, orders, i));
      }
    }
  }

  lemma {:induction false} UnwrittenRowStays(db: Db, env: Env, scan: seq<Id>, k: OrderKey)
    requires Attributable(db.core, env.orders) && forall i :: !WritesRow(db.core, env.orders, i, k)
    ensures var d := RunIntents(db, env, scan).db.core;
      (k in d.orders <==> k in db.core.orders) && (k in db.core.orders ==> d.orders[k] == db.core.orders[k])
    decreases |scan|
  {
    if scan != [] && !Raises(db.core, env.orders, scan[0]) {
      var x := scan[0];
      IntentKeepsAttributable(db.core, env.orders, x);
      UnitKeepsRow(db.core, env.orders, x, k);
      forall i ensures !WritesRow(ReconcileIntent(db.core, env.orders, x), env.orders, i, k) {
        UnitKeepsWriters(db.core, env.orders, x, i, k);
      }
      UnwrittenRowStays(AfterIntent(db, env, x), env, scan[1..], k);
    }
  }

  /** And it creates and changes no other row. */
  lemma OtherRowsStay(db: Db, env: Env, s: Scans, k: OrderKey)
    requires Attributable(db.core, env.orders) && !Pass(db, env, s).raised && !Concerned(db.core, env.orders, k)
    ensures var d := Pass(db, env, s).db.core;
      (k in d.orders <==> k in db.core.orders) && (k in db.core.orders ==> d.orders[k] == db.core.orders[k])
  {
    forall i ensures !WritesRow(db.core, env.orders, i, k) {
      if WritesRow(db.core, env.orders, i, k) { WriterIsConcerned(db.core, env.orders, i, k); }
    }
    UnwrittenRowStays(db, env, s.intents, k);
    PassKeepsRows(db, env, s);
  }

  // ---- Legs follow the fills ----

  /** The order ended with a fill at the broker. */
  predicate EndedFilled(b: BrokerOrder) {
    b.status.Complete? || (b.filled > 0 && !b.status.Pending? && !b.status.Open?)
  }

  /** The intent is unresolved, and its one order at the broker ended with a fill. */
  ghost predicate FilledAt(c: Core, orders: seq<BrokerOrder>, i: Id, m: nat) {
    && i in c.intents && !Resolved(c.intents[i].status)
    && Sole(orders, m, c.intents[i].tag) && EndedFilled(orders[m])
  }

  lemma FillsAreFilled(c: Core, orders: seq<BrokerOrder>, i: Id)
    ensures FillInDoubt(c, orders, i) <==> exists m: nat :: FilledAt(c, orders, i, m)
  {
    if FillInDoubt(c, orders, i) {
      OneMatch(orders, c.intents[i].tag);
      var m: nat :| Sole(orders, m, c.intents[i].tag) && Matches(orders, c.intents[i].tag) == [orders[m]];
      assert FilledAt(c, orders, i, m);
    }
    if m: nat :| FilledAt(c, orders, i, m) {
      SoleMatch(orders, c.intents[i].tag, m);
    }
  }

  /** When one unresolved intent of a leg is filled and no other, a finished pass opens
      the pending leg of an entry, or closes the open leg of an exit, at the very price
      it leaves on the order row. */
  lemma LegsFollowFills(db: Db, env: Env, s: Scans, i: Id, m: nat, k: OrderKey)
    requires Attributable(db.core, env.orders) && Scanned(db, env, s) && !Pass(db, env, s).raised
    requires FilledAt(db.core, env.orders, i, m) && IsRowOf(db.core, i, env.orders[m], k)
    requires db.core.intents[i].tradeId in db.core.trades
    requires forall x, n: nat :: FilledAt(db.core, env.orders, x, n) && x != i ==>
      db.core.intents[x].tradeId != db.core.intents[i].tradeId
    ensures var (it, d) := (db.core.intents[i], Pass(db, env, s).db.core);
      && it.tradeId in d.trades && k in d.orders && d.orders[k].price.Some?
      && LegFilled(db.core.trades[it.tradeId], it.purpose, d.orders[k].price, d.trades[it.tradeId])
  {
    FillsAreFilled(db.core, env.orders, i);
    forall x | FillInDoubt(db.core, env.orders, x) && x != i
      ensures db.core.intents[x].tradeId != db.core.intents[i].tradeId
    {
      FillsAreFilled(db.core, env.orders, x);
    }
    IntentPhase(db, env, s.intents);
    WritesAnswer(db.core, env.orders, i, m, k);
    LegOutcome(db, env, s.intents, i);
    RowsAfterIntents(db, env, s.intents, i, ResolveWrites(db.core, env.orders, i));
    PassKeepsRows(db, env, s);
    PassKeepsLegs(db, env, s);
  }

  lemma PassKeepsLegs(db: Db, env: Env, s: Scans)
    requires !Pass(db, env, s).raised
    ensures Pass(db, env, s).db.core.trades == RunIntents(db, env, s.intents).db.core.trades
  {
    var run := RunIntents(db, env, s.intents);
    PositionsKeepLegs(Db(run.db.core, run.db.breaks + OrphanBreaks(run.db.core, env.orders, s.tags)), env, s.positions);
  }

  ghost predicate NoFill(c: Core, orders: seq<BrokerOrder>, t: Id) {
    forall x :: FillInDoubt(c, orders, x) ==> c.intents[x].tradeId != t
  }

  lemma UnitSparesUnfilled(c: Core, orders: seq<BrokerOrder>, x: Id, t: Id)
    requires NoFill(c, orders, t) && t in c.trades
    ensures var d := ReconcileIntent(c, orders, x); NoFill(d, orders, t) && t in d.trades && d.trades[t] == c.trades[t]
  {
    var d := ReconcileIntent(c, orders, x);
    forall y | FillInDoubt(d, orders, y)
      ensures FillInDoubt(c, orders, y) && d.intents[y].tradeId == c.intents[y].tradeId {}
  }

  lemma {:induction false} UnfilledLegStays(db: Db, env: Env, scan: seq<Id>, t: Id)
    requires NoFill(db.core, env.orders, t) && t in db.core.trades
    ensures var d := RunIntents(db, env, scan).db.core; t in d.trades && d.trades[t] == db.core.trades[t]
    decreases |scan|
  {
    if scan != [] && !Raises(db.core, env.orders, scan[0]) {
      UnitSparesUnfilled(db.core, env.orders, scan[0], t);
      UnfilledLegStays(AfterIntent(db, env, scan[0]), env, scan[1..], t);
    }
  }

  /** And a leg none of whose unresolved intents is filled stays as it is. */
  lemma OtherLegsStay(db: Db, env: Env, s: Scans, t: Id)
    requires !Pass(db, env, s).raised && t in db.core.trades
    requires forall x, m: nat :: FilledAt(db.core, env.orders, x, m) ==> db.core.intents[x].tradeId != t
    ensures var d := Pass(db, env, s).db.core; t in d.trades && d.trades[t] == db.core.trades[t]
  {
    forall x | FillInDoubt(db.core, env.orders, x) ensures db.core.intents[x].tradeId != t {
      FillsAreFilled(db.core, env.orders, x);
    }
    UnfilledLegStays(db, env, s.intents, t);
    PassKeepsLegs(db, env, s);
  }
}
