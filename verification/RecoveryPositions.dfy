// What a finished pass leaves of every position and instance, read off the tables it
// found, the legs it leaves, the orderbook and the broker's holdings.

module RecoveryPositions {
  import opened Broker
  import opened Recovery
  import opened Confluence
  import opened RecoveryConfluence
  import opened CrashRestart
  import opened RepeatPass
  import opened RecoveryAlarms
  import opened RecoveryAborts

  // ---- Duplicate orders ----

  /** Two orders at the broker carry the tag of an unresolved intent of one of its legs. */
  ghost predicate DoubledOn(c: Core, orders: seq<BrokerOrder>, p: Id) {
    exists i, m: nat, n: nat :: i in c.intents && !Resolved(c.intents[i].status)
      && c.intents[i].tradeId in c.trades && c.trades[c.intents[i].tradeId].positionId == p
      && m < n && Carries(orders, m, c.intents[i].tag) && Carries(orders, n, c.intents[i].tag)
  }

  lemma {:induction false} TwoCarry(orders: seq<BrokerOrder>, tag: string) returns (m: nat, n: nat)
    requires |Matches(orders, tag)| >= 2
    ensures m < n && Carries(orders, m, tag) && Carries(orders, n, tag)
  {
    if orders[0].tag == tag && tag != "" {
      n := FirstCarrier(orders[1..], tag);
      m, n := 0, n + 1;
    } else {
      m, n := TwoCarry(orders[1..], tag);
      m, n := m + 1, n + 1;
    }
  }

  lemma {:induction false} FirstCarrier(orders: seq<BrokerOrder>, tag: string) returns (m: nat)
    requires |Matches(orders, tag)| >= 1
    ensures Carries(orders, m, tag)
  {
    if orders[0].tag == tag && tag != "" {
      m := 0;
    } else {
      m := FirstCarrier(orders[1..], tag);
      m := m + 1;
    }
  }

  lemma DuplicatesAreDoubled(c: Core, orders: seq<BrokerOrder>, p: Id)
    ensures DoubledOn(c, orders, p) <==> exists i :: DuplicateOn(c, orders, i, p)
  {
    if i :| DuplicateOn(c, orders, i, p) {
      var m, n := TwoCarry(orders, c.intents[i].tag);
    }
    if DoubledOn(c, orders, p) {
      var i, m: nat, n: nat :| i in c.intents && !Resolved(c.intents[i].status)
        && c.intents[i].tradeId in c.trades && c.trades[c.intents[i].tradeId].positionId == p
        && m < n && Carries(orders, m, c.intents[i].tag) && Carries(orders, n, c.intents[i].tag);
      TwoMatches(orders, c.intents[i].tag, m, n);
      assert DuplicateOn(c, orders, i, p);
    }
  }

  // ---- One position ----

  function InError(pos: Position, reason: Reason): Position {
    pos.(state := Errored, needsReconciliation := true, message := Some(reason))
  }

  ghost function LegsOf(trades: map<Id, Trade>, p: Id): map<Id, Trade> {
    map t | t in trades && trades[t].positionId == p :: trades[t]
  }

  ghost function Standing(trades: map<Id, Trade>, p: Id, status: LegStatus): set<Id> {
    set t | t in trades && trades[t].positionId == p && trades[t].status == status
  }

  /** Symbols of open legs of which the broker holds nothing. */
  ghost function NotHeld(trades: map<Id, Trade>, p: Id, held: seq<BrokerPosition>): set<string> {
    set t | t in Standing(trades, p, LegOpen) && !Holds(held, trades[t].symbol) :: trades[t].symbol
  }

  /** What becomes of a position that is `was`, with these legs, when no duplicate order
      has taken it to ERROR. */
  ghost function Settles(was: Position, trades: map<Id, Trade>, p: Id, env: Env): Position {
    var active, waiting, closed :=
      Standing(trades, p, LegOpen), Standing(trades, p, LegPending), Standing(trades, p, LegClosed);
    match was.state
    case EntryPending =>
      if active == {} then was.(state := Closed)
      else if waiting != {} then InError(was, PartialEntry(|active|, |LegsOf(trades, p)|))
      else if env.hook.None? then was.(needsReconciliation := true)
      else was.(state := PositionOpen, terms := env.hook.value.entryTerms(was, LegsOf(trades, p)))
    case ExitPending =>
      if closed == {} then was
      else if active != {} then InError(was, PartialExit(|active|, |LegsOf(trades, p)|))
      else if env.hook.None? then was.(needsReconciliation := true)
      else was.(state := Closed, terms := env.hook.value.exitTerms(was, LegsOf(trades, p)))
    case PositionOpen =>
      if env.held.None? || NotHeld(trades, p, env.held.value) == {} then was
      else InError(was, BrokerFlat(NotHeld(trades, p, env.held.value)))
    case _ => was
  }

  lemma SameStanding(trades: map<Id, Trade>, p: Id, status: LegStatus)
    ensures LegsIn(Legs(trades, p), status) == Standing(trades, p, status)
  {
  }

  lemma SameMissing(trades: map<Id, Trade>, p: Id, held: seq<BrokerPosition>)
    ensures MissingSymbols(Legs(trades, p), held) == NotHeld(trades, p, held)
  {
    SameStanding(trades, p, LegOpen);
    forall x ensures x in HeldSymbols(held) <==> Holds(held, x) {}
  }

  lemma RepairIs(c: Core, env: Env, p: Id)
    requires Unfinished(c, p)
    ensures var (active, waiting, closed) :=
        (Standing(c.trades, p, LegOpen), Standing(c.trades, p, LegPending), Standing(c.trades, p, LegClosed));
      RepairFor(c, env, p) == match c.positions[p].state
        case EntryPending =>
          if active == {} then AbortEntry
          else if waiting == {} then FinalizeEntry
          else MoveToError(PartialEntryBreak, PartialEntry(|active|, |LegsOf(c.trades, p)|))
        case ExitPending =>
          if closed == {} then Nothing
          else if active == {} then FinalizeExit
          else MoveToError(Other, PartialExit(|active|, |LegsOf(c.trades, p)|))
        case _ =>
          if env.held.None? || NotHeld(c.trades, p, env.held.value) == {} then Nothing
          else MoveToError(BrokerFlatDbOpen, BrokerFlat(NotHeld(c.trades, p, env.held.value)))
  {
    SameStanding(c.trades, p, LegOpen);
    SameStanding(c.trades, p, LegPending);
    SameStanding(c.trades, p, LegClosed);
    assert Legs(c.trades, p) == LegsOf(c.trades, p);
    if env.held.Some? {
      SameMissing(c.trades, p, env.held.value);
    }
  }

  /** The unit of work settles the position. */
  lemma UnitSettles(c: Core, env: Env, p: Id)
    requires p in c.positions
    ensures var d := ReconcilePosition(c, env, p);
      p in d.positions && (Unfinished(c, p) ==> d.positions[p] == Settles(c.positions[p], c.trades, p, env))
  {
    if Unfinished(c, p) {
      RepairIs(c, env, p);
      assert Legs(c.trades, p) == LegsOf(c.trades, p);
    }
  }

  // ---- Through the intents ----

  lemma UnitDoubles(c: Core, orders: seq<BrokerOrder>, x: Id, p: Id)
    requires p in c.positions && !Raises(c, orders, x)
    ensures var (d, pos) := (ReconcileIntent(c, orders, x), c.positions[p]);
      p in d.positions && d.positions[p] ==
        if DuplicateOn(c, orders, x, p) && !pos.state.Closed? && !pos.state.Errored? then InError(pos, DuplicateOrders)
        else pos
  {
  }

  /** The position once its duplicate orders, if any, have taken it to ERROR. */
  ghost function AfterDuplicates(c: Core, orders: seq<BrokerOrder>, p: Id): Position
    requires p in c.positions
  {
    var pos := c.positions[p];
    if !pos.state.Closed? && !pos.state.Errored? && DoubledOn(c, orders, p) then InError(pos, DuplicateOrders) else pos
  }

  lemma {:induction false} AfterIntents(db: Db, env: Env, scan: seq<Id>, p: Id)
    requires p in db.core.positions && !RunIntents(db, env, scan).raised
    ensures var (d, pos) := (RunIntents(db, env, scan).db.core, db.core.positions[p]);
      p in d.positions && d.positions[p] ==
        if !pos.state.Closed? && !pos.state.Errored? && exists i :: i in scan && DuplicateOn(db.core, env.orders, i, p)
        then InError(pos, DuplicateOrders) else pos
    decreases |scan|
  {
    if scan != [] {
      var x, rest := scan[0], scan[1..];
      assert scan == [x] + rest;
      UnitDoubles(db.core, env.orders, x, p);
      forall i
        ensures DuplicateOn(AfterIntent(db, env, x).core, env.orders, i, p) <==> DuplicateOn(db.core, env.orders, i, p)
      {
        DuplicatesStay(db.core, env.orders, x, i, p);
      }
      AfterIntents(AfterIntent(db, env, x), env, rest, p);
    }
  }

  /** After a finished pass every position is as it was if it had ended; in ERROR if two
      orders carry a tag of its legs; and otherwise what its state and its legs, as the
      pass leaves them, call for. */
  lemma PositionsSettle(db: Db, env: Env, s: Scans, p: Id)
    requires Scanned(db, env, s) && !Pass(db, env, s).raised && p in db.core.positions
    ensures var (d, was) := (Pass(db, env, s).db.core, db.core.positions[p]);
      p in d.positions && d.positions[p] ==
        if was.state.Closed? || was.state.Errored? then was
        else if DoubledOn(db.core, env.orders, p) then InError(was, DuplicateOrders)
        else Settles(was, d.trades, p, env)
  {
    var run := RunIntents(db, env, s.intents);
    var mid := run.db.core;
    AfterIntents(db, env, s.intents, p);
    DuplicatesAreDoubled(db.core, env.orders, p);
    assert forall i :: DuplicateOn(db.core, env.orders, i, p) ==> i in s.intents;
    PositionPhase(Db(mid, run.db.breaks + OrphanBreaks(mid, env.orders, s.tags)), env, s.positions);
    PositionOutcome(mid, env, s.positions, p);
    UnitSettles(mid, env, p);
  }

  // ---- Instances ----

  ghost predicate NewlyErrored(c: Core, d: Core, p: Id) {
    p in c.positions && !c.positions[p].state.Errored? && p in d.positions && d.positions[p].state.Errored?
  }

  /** Between the two, exactly the instances of positions newly in ERROR froze; positions
      keep their instance, and errors stay. */
  ghost predicate Freezes(c: Core, d: Core) {
    && d.positions.Keys == c.positions.Keys && d.instances.Keys == c.instances.Keys
    && (forall p :: p in c.positions ==>
          d.positions[p].instanceId == c.positions[p].instanceId
          && (c.positions[p].state.Errored? ==> d.positions[p].state.Errored?))
    && forall q :: q in c.instances ==> FreezesOne(c, d, q)
  }

  ghost predicate FreezesOne(c: Core, d: Core, q: Id)
    requires q in c.instances && q in d.instances
  {
    d.instances[q] ==
      if exists p :: NewlyErrored(c, d, p) && c.positions[p].instanceId == q then Frozen else c.instances[q]
  }

  lemma FreezesThen(c: Core, d: Core, e: Core)
    requires Freezes(c, d) && Freezes(d, e)
    ensures Freezes(c, e)
  {
    forall p ensures NewlyErrored(c, e, p) <==> NewlyErrored(c, d, p) || NewlyErrored(d, e, p) {}
    forall q | q in c.instances ensures FreezesOne(c, e, q) {
      assert FreezesOne(c, d, q) && FreezesOne(d, e, q);
    }
  }

  lemma ErrorFreezes(c: Core, p: Id, reason: Reason)
    requires p in c.positions && !c.positions[p].state.Errored?
    ensures Freezes(c, ErrorPosition(c, p, reason))
  {
    var d := ErrorPosition(c, p, reason);
    forall x ensures NewlyErrored(c, d, x) <==> x == p {}
  }

  lemma QuietFreezes(c: Core, d: Core)
    requires d.instances == c.instances && d.positions.Keys == c.positions.Keys
    requires forall p :: p in c.positions ==>
      d.positions[p].instanceId == c.positions[p].instanceId
      && (d.positions[p].state.Errored? <==> c.positions[p].state.Errored?)
    ensures Freezes(c, d)
  {
    forall p ensures !NewlyErrored(c, d, p) {}
  }

  lemma IntentFreezes(c: Core, orders: seq<BrokerOrder>, x: Id)
    ensures Freezes(c, ReconcileIntent(c, orders, x))
  {
    var d := ReconcileIntent(c, orders, x);
    if d.positions == c.positions {
      QuietFreezes(c, d);
    } else {
      ErrorFreezes(c, c.trades[c.intents[x].tradeId].positionId, DuplicateOrders);
    }
  }

  lemma PositionFreezes(c: Core, env: Env, p: Id)
    ensures Freezes(c, ReconcilePosition(c, env, p))
  {
    var r := RepairFor(c, env, p);
    if r.MoveToError? {
      ErrorFreezes(c, p, r.reason);
    } else {
      QuietFreezes(c, ReconcilePosition(c, env, p));
    }
  }

  lemma {:induction false} IntentsFreeze(db: Db, env: Env, scan: seq<Id>)
    ensures Freezes(db.core, RunIntents(db, env, scan).db.core)
    decreases |scan|
  {
    if scan == [] || Raises(db.core, env.orders, scan[0]) {
      QuietFreezes(db.core, db.core);
    } else {
      var next := AfterIntent(db, env, scan[0]);
      IntentFreezes(db.core, env.orders, scan[0]);
      IntentsFreeze(next, env, scan[1..]);
      FreezesThen(db.core, next.core, RunIntents(next, env, scan[1..]).db.core);
    }
  }

  lemma {:induction false} PositionsFreeze(db: Db, env: Env, scan: seq<Id>)
    ensures Freezes(db.core, RunPositions(db, env, scan).core)
    decreases |scan|
  {
    if scan == [] {
      QuietFreezes(db.core, db.core);
    } else {
      var next := AfterPosition(db, env, scan[0]);
      PositionFreezes(db.core, env, scan[0]);
      PositionsFreeze(next, env, scan[1..]);
      FreezesThen(db.core, next.core, RunPositions(next, env, scan[1..]).core);
    }
  }

  /** A pass, finished or not, freezes exactly the instances whose positions it takes to
      ERROR, and changes no other instance. */
  lemma InstancesFreeze(db: Db, env: Env, s: Scans)
    ensures Freezes(db.core, Pass(db, env, s).db.core)
  {
    IntentsFreeze(db, env, s.intents);
    var run := RunIntents(db, env, s.intents);
    if !run.raised {
      var tagged := Db(run.db.core, run.db.breaks + OrphanBreaks(run.db.core, env.orders, s.tags));
      PositionsFreeze(tagged, env, s.positions);
      FreezesThen(db.core, run.db.core, RunPositions(tagged, env, s.positions).core);
    }
  }
}
