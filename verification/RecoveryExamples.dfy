// Small databases on which a recovery pass does less than one might expect: a second
// pass that repairs more, an over-filled order, and a tag that two rows carry.

module RecoveryExamples {
  import opened Broker
  import opened Recovery
  import opened RecoveryConfluence
  import opened RecoveryRuns
  import opened CrashRestart
  import opened RepeatPass
  import opened RecoveryAlarms
  import opened RecoveryAborts
  import opened Confluence

  /** An entry whose only leg filled, though the broker holds nothing now. */
  const FlatEntry := Db(
    Core(map[], map[], map[0 := Trade(0, "X", LegOpen, Some(1.0), None)],
      map[0 := Position(0, EntryPending, false, None, 0)], map[0 := Active]), [])

  const OnePosition := Scans([], [], [0])

  /** The first pass opens the position and the second takes it to ERROR. */
  lemma SecondPassRepairsMore(hook: Hook)
    ensures var env := Env([], Some([]), Some(hook)); var once := Pass(FlatEntry, env, OnePosition);
      && Sane(FlatEntry.core, []) && Recordable(FlatEntry.core, [])
      && Scanned(FlatEntry, env, OnePosition) && !once.raised
      && Scanned(once.db, env, OnePosition) && Pass(once.db, env, OnePosition).db.core != once.db.core
  {
    var db, env := FlatEntry, Env([], Some([]), Some(hook));
    var c := db.core;
    assert Sane(c, []) && Recordable(c, []);
    FilledLegIsMissing(c);
    assert RepairFor(c, env, 0) == FinalizeEntry;
    var d := ReconcilePosition(c, env, 0);
    assert RunPositions(Db(c, []), env, [0]) == RunPositions(Db(d, []), env, [0][1..]);
    assert TagSet([]) == {};
    var once := Pass(db, env, OnePosition);
    assert once.db == Db(d, []) && d.trades == c.trades;
    SettledUnchanged(c, []);
    assert LateFlat(c, env, 0) && !EntriesLive(c, env);
    SecondPassIdleIff(db, env, OnePosition, OnePosition);
  }

  lemma FilledLegIsMissing(c: Core)
    requires c == FlatEntry.core
    ensures var legs := Legs(c.trades, 0);
      LegsIn(legs, LegOpen) == {0} && LegsIn(legs, LegPending) == {} && MissingSymbols(legs, []) == {"X"}
  {
    var legs := Legs(c.trades, 0);
    assert legs == map[0 := c.trades[0]];
    assert LegsIn(legs, LegOpen) == {0};
  }

  /** One in-doubt entry intent of one unit, on leg 0. */
  function OneIntent(rows: map<OrderKey, OrderRow>): Db {
    Db(Core(map[0 := Intent(0, Entry, Sell, 1, "t", SubmittedUnconfirmed)], rows,
      map[0 := Trade(0, "X", LegPending, None, None)],
      map[0 := Position(0, EntryPending, false, None, 0)], map[0 := Active]), [])
  }

  const OneOfEach := Scans([0], ["t"], [0])

  lemma OneOrderJudged(b: BrokerOrder)
    requires b.tag == "t"
    ensures Matches([b], "t") == [b] && Judge([b], "t") == JudgeOrder(b) && TagSet([b]) == {"t"}
  {
    assert [b][1..] == [];
    assert b in [b];
  }

  /** A pass whose only in-doubt intent is refused stops at once, having changed nothing. */
  lemma StopsAtOnce(db: Db, env: Env)
    requires (forall i :: InDoubt(db.core, i) <==> i == 0) && (forall p :: Unfinished(db.core, p) <==> p == 0)
    requires TagSet(env.orders) == {"t"} && Raises(db.core, env.orders, 0)
    ensures Scanned(db, env, OneOfEach) && Pass(db, env, OneOfEach) == Run(db, true)
  {
    assert RunIntents(db, env, [0]) == Run(db, true);
  }

  /** The broker filled two units of an order for one: the pass never completes. */
  lemma OverfillRefused(env: Env)
    requires env.orders == [BrokerOrder("b9", "t", Complete, 2, 2, Some(1.0))]
    ensures var db := OneIntent(map[]);
      Sane(db.core, env.orders) && Scanned(db, env, OneOfEach) && Pass(db, env, OneOfEach).raised
  {
    var db, b := OneIntent(map[]), env.orders[0];
    OneOrderJudged(b);
    assert InDoubt(db.core, 0) && Raises(db.core, env.orders, 0);
    StopsAtOnce(db, env);
  }

  function RejectedRow(): OrderRow {
    OrderRow(0, Some(0), Entry, Sell, 1, 0, None, Rejected, None, Some("t"))
  }

  /** Two attempts under the tag were rejected before acknowledgement, and the third
      one's acknowledgement was lost: a pass stops there, having changed nothing.
      With a single rejected attempt it would have gone through. */
  lemma LostAcknowledgementBlocks(env: Env)
    requires env.orders == [BrokerOrder("b9", "t", Complete, 1, 1, Some(1.0))]
    ensures var db := OneIntent(map[Stored(1) := RejectedRow(), Stored(2) := RejectedRow()]);
      && Sane(db.core, env.orders) && Scanned(db, env, OneOfEach)
      && Pass(db, env, OneOfEach) == Run(db, true)
      && Recordable(OneIntent(map[Stored(1) := RejectedRow()]).core, env.orders)
  {
    var rows, b := map[Stored(1) := RejectedRow(), Stored(2) := RejectedRow()], env.orders[0];
    var db := OneIntent(rows);
    OneOrderJudged(b);
    assert HasTag(rows, Stored(1), "t") && HasTag(rows, Stored(2), "t");
    assert Ambiguous(rows, "t") && !IdKnown(db.core, b);
    assert InDoubt(db.core, 0) && Raises(db.core, env.orders, 0);
    StopsAtOnce(db, env);
    OneRejectionRecordable(env);
  }

  lemma OneRejectionRecordable(env: Env)
    requires env.orders == [BrokerOrder("b9", "t", Complete, 1, 1, Some(1.0))]
    ensures Recordable(OneIntent(map[Stored(1) := RejectedRow()]).core, env.orders)
  {
    var c, b := OneIntent(map[Stored(1) := RejectedRow()]).core, env.orders[0];
    OneOrderJudged(b);
    assert HasTag(c.orders, Stored(1), "t");
    forall i ensures !Raises(c, env.orders, i) {
      if i == 0 { RowKeyIsOwn(c, env.orders, 0); }
    }
  }

  /** With the acknowledged attempt on record, the rejected one beside it does no harm. */
  lemma RejectedAttemptHarmless(env: Env)
    requires env.orders == [BrokerOrder("b9", "t", Complete, 1, 1, Some(1.0))]
    ensures var acknowledged := RejectedRow().(brokerId := Some("b9"), status := Open);
      var db := OneIntent(map[Stored(1) := RejectedRow(), Stored(2) := acknowledged]);
      Sane(db.core, env.orders) && Recordable(db.core, env.orders)
  {
    var rows := map[Stored(1) := RejectedRow(), Stored(2) := RejectedRow().(brokerId := Some("b9"), status := Open)];
    var c, b := OneIntent(rows).core, env.orders[0];
    OneOrderJudged(b);
    assert HasBrokerId(c.orders, Stored(2), "b9");
    forall i ensures !Raises(c, env.orders, i) {
      if i == 0 { RowKeyIsOwn(c, env.orders, 0); }
    }
  }

  lemma TwoOrdersJudged(e: BrokerOrder, u: BrokerOrder)
    requires e.tag == "e" && u.tag == "u"
    ensures Judge([e, u], "e") == JudgeOrder(e) && Judge([e, u], "u") == JudgeOrder(u)
  {
    assert [e, u][1..] == [u] && [u][1..] == [] && "e"[0] != "u"[0];
    assert u.tag != "e" && e.tag != "u";
    assert Matches([u], "u") == [u] + Matches([u][1..], "u") && Matches([u], "e") == [] + Matches([u][1..], "e");
    assert Matches([e, u], "e") == [e] + Matches([u], "e") && Matches([e, u], "u") == [] + Matches([u], "u");
  }

  /** A leg bought back at once: its entry order and its unwinding order both filled,
      and neither was confirmed before the crash. */
  function Unwound(): Core {
    Core(
      map[0 := Intent(0, Entry, Sell, 1, "e", Placed), 1 := Intent(0, Exit, Buy, 1, "u", SubmittedUnconfirmed)], map[],
      map[0 := Trade(0, "X", LegPending, None, None)],
      map[0 := Position(0, EntryPending, false, None, 0)], map[0 := Active])
  }

  predicate BothFilled(e: BrokerOrder, u: BrokerOrder) {
    e == BrokerOrder("b1", "e", Complete, 1, 1, Some(1.0)) && u == BrokerOrder("b2", "u", Complete, 1, 1, Some(1.0))
  }

  lemma UnwoundFills(c: Core, e: BrokerOrder, u: BrokerOrder)
    requires c == Unwound() && BothFilled(e, u)
    ensures TagSet([e, u]) == {"e", "u"}
    ensures EntryFill(c, [e, u], 0, 0) && ExitFill(c, [e, u], 1, 0)
    ensures forall x :: InDoubt(c, x) <==> x == 0 || x == 1
  {
    TwoOrdersJudged(e, u);
    assert e in [e, u] && u in [e, u];
  }

  lemma UnwoundAttributable(c: Core, e: BrokerOrder, u: BrokerOrder)
    requires c == Unwound() && BothFilled(e, u)
    ensures Attributable(c, [e, u])
  {
    assert "b1"[1] != "b2"[1] && "e"[0] != "u"[0];
    assert RowsSane(c, [e, u]);
  }

  lemma UnwoundRecordable(c: Core, e: BrokerOrder, u: BrokerOrder)
    requires c == Unwound() && BothFilled(e, u)
    ensures Attributable(c, [e, u]) && Recordable(c, [e, u])
  {
    TwoOrdersJudged(e, u);
    UnwoundAttributable(c, e, u);
    forall i ensures !Raises(c, [e, u], i) {
      if i in c.intents { RowKeyIsOwn(c, [e, u], i); }
    }
  }

  /** The outcome of the two units depends on which comes first. */
  lemma UnwindOrderMatters(c: Core, e: BrokerOrder, u: BrokerOrder)
    requires c == Unwound() && BothFilled(e, u)
    ensures ReconcileIntent(ReconcileIntent(c, [e, u], 0), [e, u], 1) !=
      ReconcileIntent(ReconcileIntent(c, [e, u], 1), [e, u], 0)
  {
    UnwoundFills(c, e, u);
    UnwoundRecordable(c, e, u);
    TwoFillsDisagree(c, [e, u], 0, 1);
  }

  lemma TwoUnits(db: Db, env: Env, e: BrokerOrder, u: BrokerOrder, x: Id, y: Id)
    requires db.core == Unwound() && BothFilled(e, u) && env.orders == [e, u] && x != y
    ensures !RunIntents(db, env, [x, y]).raised
  {
    UnwoundRecordable(db.core, e, u);
    var next := AfterIntent(db, env, x);
    IntentIgnoresOthers(db.core, env.orders, x, y);
    assert [x, y][1..] == [y] && [y][1..] == [];
    assert !Raises(next.core, env.orders, y);
    assert !RunIntents(AfterIntent(next, env, y), env, []).raised;
    assert RunIntents(next, env, [y]) == RunIntents(AfterIntent(next, env, y), env, []);
    assert RunIntents(db, env, [x, y]) == RunIntents(next, env, [y]);
  }

  lemma NoDuplicates(c: Core, e: BrokerOrder, u: BrokerOrder)
    requires c == Unwound() && BothFilled(e, u)
    ensures forall i :: !DuplicateOn(c, [e, u], i, 0)
  {
    UnwoundFills(c, e, u);
  }

  lemma StillPending(db: Db, env: Env, scan: seq<Id>)
    requires db.core.positions.Keys == {0} && db.core.positions[0].state.EntryPending?
    requires !RunIntents(db, env, scan).raised
    requires forall i :: !DuplicateOn(db.core, env.orders, i, 0)
    ensures PositionScan(RunIntents(db, env, scan).db.core, [0])
  {
    EntryOutcome(db, env, scan, 0);
    OnePositionLeft(db, env, scan);
  }

  lemma UnwoundScanned(db: Db, env: Env, e: BrokerOrder, u: BrokerOrder, scan: seq<Id>)
    requires db.core == Unwound() && BothFilled(e, u) && env.orders == [e, u] && (scan == [0, 1] || scan == [1, 0])
    ensures Scanned(db, env, Scans(scan, ["e", "u"], [0])) && !RunIntents(db, env, scan).raised
  {
    UnwoundFills(db.core, e, u);
    NoDuplicates(db.core, e, u);
    TwoUnits(db, env, e, u, scan[0], scan[1]);
    StillPending(db, env, scan);
  }

  lemma OnePair(c: Core, e: BrokerOrder, u: BrokerOrder, scan: seq<Id>, m: nat)
    requires c == Unwound() && BothFilled(e, u)
    requires (scan == [0, 1] && m == 0) || (scan == [1, 0] && m == 1)
    ensures EntryFill(c, [e, u], scan[m], 0) && ExitFill(c, [e, u], scan[1 - m], 0)
    ensures forall k :: 0 <= k < |scan| && EntryFill(c, [e, u], scan[k], 0) ==> k == m
    ensures forall k :: 0 <= k < |scan| && ExitFill(c, [e, u], scan[k], 0) ==> k == 1 - m
    ensures forall t :: LeftOpen(c, [e, u], scan, t) ==> t == 0
  {
    UnwoundFills(c, e, u);
  }

  /** A filled entry overlooked: with the unwinding order scanned second, the pass
      closes the position as never entered; with it first, it does not. */
  lemma AbortedOverFilledEntry(db: Db, env: Env, e: BrokerOrder, u: BrokerOrder, scan: seq<Id>)
    requires db.core == Unwound() && BothFilled(e, u) && env.orders == [e, u] && (scan == [0, 1] || scan == [1, 0])
    ensures var s := Scans(scan, ["e", "u"], [0]);
      && Scanned(db, env, s) && !Pass(db, env, s).raised
      && 0 in Pass(db, env, s).db.core.positions
      && (Pass(db, env, s).db.core.positions[0].state.Closed? <==> scan == [0, 1])
  {
    UnwoundScanned(db, env, e, u, scan);
    NoDuplicates(db.core, e, u);
    var m := if scan == [0, 1] then 0 else 1;
    OnePair(db.core, e, u, scan, m);
    AbortedOverUnwindIff(db, env, Scans(scan, ["e", "u"], [0]), 0, 0, m, 1 - m);
  }

  lemma {:induction false} OnePositionLeft(db: Db, env: Env, scan: seq<Id>)
    ensures RunIntents(db, env, scan).db.core.positions.Keys == db.core.positions.Keys
    decreases |scan|
  {
    if scan != [] && !Raises(db.core, env.orders, scan[0]) {
      OnePositionLeft(AfterIntent(db, env, scan[0]), env, scan[1..]);
    }
  }
}
