// When recovery aborts an entry: exactly which pending entries a pass closes, read off
// the database, the orderbook and the order of the scan.

module RecoveryAborts {
  import opened Broker
  import opened Recovery
  import opened Confluence
  import opened RecoveryConfluence
  import opened CrashRestart
  import opened RepeatPass
  import opened RecoveryAlarms
  import opened RecoverySafety

  ghost predicate EntryFill(c: Core, orders: seq<BrokerOrder>, x: Id, t: Id) {
    FillInDoubt(c, orders, x) && c.intents[x].tradeId == t && c.intents[x].purpose.Entry?
  }

  ghost predicate ExitFill(c: Core, orders: seq<BrokerOrder>, x: Id, t: Id) {
    FillInDoubt(c, orders, x) && c.intents[x].tradeId == t && c.intents[x].purpose.Exit?
  }

  ghost predicate SomeEntry(c: Core, orders: seq<BrokerOrder>, scan: seq<Id>, t: Id) {
    exists m :: 0 <= m < |scan| && EntryFill(c, orders, scan[m], t)
  }

  ghost predicate SomeExit(c: Core, orders: seq<BrokerOrder>, scan: seq<Id>, t: Id) {
    exists m :: 0 <= m < |scan| && ExitFill(c, orders, scan[m], t)
  }

  /** A filled exit of the leg is scanned after a filled entry of it. */
  ghost predicate ExitAfterEntry(c: Core, orders: seq<BrokerOrder>, scan: seq<Id>, t: Id) {
    exists m, n :: 0 <= m < n < |scan| && EntryFill(c, orders, scan[m], t) && ExitFill(c, orders, scan[n], t)
  }

  /** The leg is open once the scan is done: it was open and no exit of it filled, or
      it was pending, an entry of it filled, and no filled exit came after one. */
  ghost predicate LeftOpen(c: Core, orders: seq<BrokerOrder>, scan: seq<Id>, t: Id) {
    t in c.trades &&
    match c.trades[t].status
    case LegPending => SomeEntry(c, orders, scan, t) && !ExitAfterEntry(c, orders, scan, t)
    case LegOpen => !SomeExit(c, orders, scan, t)
    case _ => false
  }

  // ---- One unit of work ----

  lemma UnitMovesLeg(c: Core, orders: seq<BrokerOrder>, x: Id, t: Id)
    requires t in c.trades && !Raises(c, orders, x)
    ensures var (d, was) := (ReconcileIntent(c, orders, x), c.trades[t].status);
      t in d.trades && d.trades[t].positionId == c.trades[t].positionId &&
      d.trades[t].status ==
        if EntryFill(c, orders, x, t) && was.LegPending? then LegOpen
        else if ExitFill(c, orders, x, t) && was.LegOpen? then LegClosed
        else was
  {
  }

  lemma UnitKeepsOthers(c: Core, orders: seq<BrokerOrder>, x: Id, y: Id, t: Id)
    requires x != y
    ensures var d := ReconcileIntent(c, orders, x);
      && (EntryFill(d, orders, y, t) <==> EntryFill(c, orders, y, t))
      && (ExitFill(d, orders, y, t) <==> ExitFill(c, orders, y, t))
  {
  }

  // ---- The leg after the intents ----

  lemma {:induction false} EndedLegStays(db: Db, env: Env, scan: seq<Id>, t: Id)
    requires !RunIntents(db, env, scan).raised && t in db.core.trades
    requires !db.core.trades[t].status.LegPending? && !db.core.trades[t].status.LegOpen?
    ensures var d := RunIntents(db, env, scan).db.core;
      && t in d.trades && d.trades[t].positionId == db.core.trades[t].positionId
      && d.trades[t].status == db.core.trades[t].status
    decreases |scan|
  {
    if scan != [] {
      UnitMovesLeg(db.core, env.orders, scan[0], t);
      EndedLegStays(AfterIntent(db, env, scan[0]), env, scan[1..], t);
    }
  }

  lemma {:induction false} OpenLegOutcome(db: Db, env: Env, scan: seq<Id>, t: Id)
    requires !RunIntents(db, env, scan).raised && Distinct(scan)
    requires t in db.core.trades && db.core.trades[t].status.LegOpen?
    ensures var d := RunIntents(db, env, scan).db.core;
      t in d.trades && d.trades[t].positionId == db.core.trades[t].positionId &&
      d.trades[t].status == if SomeExit(db.core, env.orders, scan, t) then LegClosed else LegOpen
    decreases |scan|
  {
    if scan != [] {
      var c, orders, x, rest := db.core, env.orders, scan[0], scan[1..];
      var d := ReconcileIntent(c, orders, x);
      UnitMovesLeg(c, orders, x, t);
      RestUnchanged(c, orders, scan, t);
      if ExitFill(c, orders, x, t) {
        EndedLegStays(AfterIntent(db, env, x), env, rest, t);
      } else {
        OpenLegOutcome(AfterIntent(db, env, x), env, rest, t);
      }
    }
  }

  /** What the first unit leaves of the questions about the rest of the scan. */
  lemma RestUnchanged(c: Core, orders: seq<BrokerOrder>, scan: seq<Id>, t: Id)
    requires scan != [] && Distinct(scan)
    ensures var (d, x, rest) := (ReconcileIntent(c, orders, scan[0]), scan[0], scan[1..]);
      && (SomeEntry(c, orders, scan, t) <==> EntryFill(c, orders, x, t) || SomeEntry(d, orders, rest, t))
      && (SomeExit(c, orders, scan, t) <==> ExitFill(c, orders, x, t) || SomeExit(d, orders, rest, t))
      && (ExitAfterEntry(c, orders, scan, t) <==>
            (EntryFill(c, orders, x, t) && SomeExit(d, orders, rest, t)) || ExitAfterEntry(d, orders, rest, t))
  {
    var d, x, rest := ReconcileIntent(c, orders, scan[0]), scan[0], scan[1..];
    forall m | 1 <= m < |scan|
      ensures EntryFill(d, orders, rest[m - 1], t) <==> EntryFill(c, orders, scan[m], t)
      ensures ExitFill(d, orders, rest[m - 1], t) <==> ExitFill(c, orders, scan[m], t)
    {
      UnitKeepsOthers(c, orders, x, scan[m], t);
    }
    if m :| 0 <= m < |rest| && EntryFill(d, orders, rest[m], t) { assert EntryFill(c, orders, scan[m + 1], t); }
    if m :| 0 <= m < |rest| && ExitFill(d, orders, rest[m], t) { assert ExitFill(c, orders, scan[m + 1], t); }
    if m, n :| 0 <= m < n < |rest| && EntryFill(d, orders, rest[m], t) && ExitFill(d, orders, rest[n], t) {
      assert EntryFill(c, orders, scan[m + 1], t) && ExitFill(c, orders, scan[n + 1], t);
    }
    if m, n :| 0 <= m < n < |scan| && EntryFill(c, orders, scan[m], t) && ExitFill(c, orders, scan[n], t) {
      assert ExitFill(d, orders, rest[n - 1], t);
      if m > 0 { assert EntryFill(d, orders, rest[m - 1], t); }
    }
  }

  lemma {:induction false} PendingLegOutcome(db: Db, env: Env, scan: seq<Id>, t: Id)
    requires !RunIntents(db, env, scan).raised && Distinct(scan)
    requires t in db.core.trades && db.core.trades[t].status.LegPending?
    ensures var d := RunIntents(db, env, scan).db.core;
      t in d.trades && d.trades[t].positionId == db.core.trades[t].positionId &&
      d.trades[t].status ==
        if ExitAfterEntry(db.core, env.orders, scan, t) then LegClosed
        else if SomeEntry(db.core, env.orders, scan, t) then LegOpen
        else LegPending
    decreases |scan|
  {
    if scan != [] {
      var c, orders, x, rest := db.core, env.orders, scan[0], scan[1..];
      UnitMovesLeg(c, orders, x, t);
      RestUnchanged(c, orders, scan, t);
      if EntryFill(c, orders, x, t) {
        OpenLegOutcome(AfterIntent(db, env, x), env, rest, t);
        PairNeedsExit(ReconcileIntent(c, orders, x), orders, rest, t);
      } else {
        PendingLegOutcome(AfterIntent(db, env, x), env, rest, t);
      }
    }
  }

  lemma PairNeedsExit(c: Core, orders: seq<BrokerOrder>, scan: seq<Id>, t: Id)
    ensures ExitAfterEntry(c, orders, scan, t) ==> SomeExit(c, orders, scan, t)
  {
  }

  lemma LegOutcome(db: Db, env: Env, scan: seq<Id>, t: Id)
    requires !RunIntents(db, env, scan).raised && t in db.core.trades && Distinct(scan)
    ensures var d := RunIntents(db, env, scan).db.core;
      t in d.trades && d.trades[t].positionId == db.core.trades[t].positionId &&
      (d.trades[t].status.LegOpen? <==> LeftOpen(db.core, env.orders, scan, t))
  {
    match db.core.trades[t].status
    case LegPending => PendingLegOutcome(db, env, scan, t);
    case LegOpen => OpenLegOutcome(db, env, scan, t);
    case _ => EndedLegStays(db, env, scan, t);
  }

  // ---- The position after the intents ----

  /** Several orders carry the tag of an in-doubt intent of one of the position's legs. */
  ghost predicate DuplicateOn(c: Core, orders: seq<BrokerOrder>, i: Id, p: Id) {
    InDoubt(c, i) && c.intents[i].tradeId in c.trades && c.trades[c.intents[i].tradeId].positionId == p
    && Judge(orders, c.intents[i].tag).Duplicated?
  }

  lemma DuplicatesStay(c: Core, orders: seq<BrokerOrder>, x: Id, i: Id, p: Id)
    requires !Raises(c, orders, x)
    ensures DuplicateOn(ReconcileIntent(c, orders, x), orders, i, p) <==> DuplicateOn(c, orders, i, p)
  {
  }

  lemma UnitMovesEntry(c: Core, orders: seq<BrokerOrder>, x: Id, p: Id)
    requires p in c.positions && c.positions[p].state.EntryPending? && !Raises(c, orders, x)
    ensures var d := ReconcileIntent(c, orders, x);
      && p in d.positions && d.trades.Keys == c.trades.Keys
      && (if DuplicateOn(c, orders, x, p) then d.positions[p].state.Errored? else d.positions[p] == c.positions[p])
      && forall i :: DuplicateOn(d, orders, i, p) <==> DuplicateOn(c, orders, i, p)
  {
    forall i ensures DuplicateOn(ReconcileIntent(c, orders, x), orders, i, p) <==> DuplicateOn(c, orders, i, p) {
      DuplicatesStay(c, orders, x, i, p);
    }
  }

  lemma {:induction false} EntryOutcome(db: Db, env: Env, scan: seq<Id>, p: Id)
    requires !RunIntents(db, env, scan).raised && p in db.core.positions && db.core.positions[p].state.EntryPending?
    ensures var d := RunIntents(db, env, scan).db.core;
      && p in d.positions && d.trades.Keys == db.core.trades.Keys
      && (if exists i :: i in scan && DuplicateOn(db.core, env.orders, i, p) then d.positions[p].state.Errored?
          else d.positions[p] == db.core.positions[p])
    decreases |scan|
  {
    if scan != [] {
      var x, rest := scan[0], scan[1..];
      var next := AfterIntent(db, env, x);
      assert scan == [x] + rest;
      UnitMovesEntry(db.core, env.orders, x, p);
      if DuplicateOn(db.core, env.orders, x, p) {
        assert x in scan;
        ErrorsStay(next, env, rest, p);
        LegsKept(next, env, rest);
      } else {
        EntryOutcome(next, env, rest, p);
        assert forall i :: i in scan && DuplicateOn(db.core, env.orders, i, p) ==>
          i in rest && DuplicateOn(next.core, env.orders, i, p);
      }
    }
  }

  lemma {:induction false} LegsKept(db: Db, env: Env, scan: seq<Id>)
    ensures RunIntents(db, env, scan).db.core.trades.Keys == db.core.trades.Keys
    decreases |scan|
  {
    if scan != [] && !Raises(db.core, env.orders, scan[0]) {
      LegsKept(AfterIntent(db, env, scan[0]), env, scan[1..]);
    }
  }

  // ---- The abort ----

  lemma AbortUnit(c: Core, env: Env, p: Id)
    requires p in c.positions && c.positions[p].state.EntryPending?
    ensures var d := ReconcilePosition(c, env, p);
      p in d.positions && (d.positions[p].state.Closed? <==> !SomeLeg(c.trades, p, LegOpen))
  {
    LegsSeen(c.trades, p, LegOpen);
  }

  /** A finished pass aborts a pending entry to CLOSED exactly when no intent of its
      legs has several orders and none of its legs is left open. In particular it
      does so over a filled entry whose filled exit is scanned after it. */
  lemma AbortsIff(db: Db, env: Env, s: Scans, p: Id)
    requires Scanned(db, env, s) && Distinct(s.intents) && !Pass(db, env, s).raised
    requires p in db.core.positions && db.core.positions[p].state.EntryPending?
    ensures var d := Pass(db, env, s).db.core;
      p in d.positions &&
      (d.positions[p].state.Closed? <==>
        (forall i :: !DuplicateOn(db.core, env.orders, i, p)) &&
        forall t :: LeftOpen(db.core, env.orders, s.intents, t) ==> db.core.trades[t].positionId != p)
  {
    var run := RunIntents(db, env, s.intents);
    var mid := run.db.core;
    EntryOutcome(db, env, s.intents, p);
    PositionPhase(Db(mid, run.db.breaks + OrphanBreaks(mid, env.orders, s.tags)), env, s.positions);
    PositionOutcome(mid, env, s.positions, p);
    forall t | t in db.core.trades
      ensures t in mid.trades && mid.trades[t].positionId == db.core.trades[t].positionId
      ensures mid.trades[t].status.LegOpen? <==> LeftOpen(db.core, env.orders, s.intents, t)
    {
      LegOutcome(db, env, s.intents, t);
    }
    assert forall i :: DuplicateOn(db.core, env.orders, i, p) ==> i in s.intents;
    if mid.positions[p].state.EntryPending? {
      AbortUnit(mid, env, p);
    }
  }

  /** So the only finished fill of an in-doubt entry that an abort overlooks is one whose
      leg a filled exit, scanned after a filled entry, has closed again. */
  lemma AbortOverlooksOnlyUnwound(db: Db, env: Env, s: Scans, p: Id, i: Id, b: BrokerOrder)
    requires Scanned(db, env, s) && Distinct(s.intents) && !Pass(db, env, s).raised
    requires p in db.core.positions && db.core.positions[p].state.EntryPending?
    requires var d := Pass(db, env, s).db.core; p in d.positions && d.positions[p].state.Closed?
    requires InDoubt(db.core, i) && db.core.intents[i].purpose.Entry? && db.core.intents[i].tradeId in db.core.trades
    requires var leg := db.core.trades[db.core.intents[i].tradeId]; leg.positionId == p && leg.status.LegPending?
    requires b in env.orders && FinishedFill(b) && b.tag == db.core.intents[i].tag
    ensures ExitAfterEntry(db.core, env.orders, s.intents, db.core.intents[i].tradeId)
  {
    var c, orders, t := db.core, env.orders, db.core.intents[i].tradeId;
    AbortsIff(db, env, s, p);
    FinishedFillJudged(orders, b);
    assert !DuplicateOn(c, orders, i, p);
    var m :| 0 <= m < |s.intents| && s.intents[m] == i;
    assert EntryFill(c, orders, s.intents[m], t);
    assert !LeftOpen(c, orders, s.intents, t);
  }

  /** For a pending leg with one filled entry and one filled exit in doubt, and no other
      leg left open, the entry is aborted exactly when the exit is scanned second. */
  lemma AbortedOverUnwindIff(db: Db, env: Env, s: Scans, p: Id, t: Id, m: nat, n: nat)
    requires Scanned(db, env, s) && Distinct(s.intents) && !Pass(db, env, s).raised
    requires p in db.core.positions && db.core.positions[p].state.EntryPending?
    requires forall i :: !DuplicateOn(db.core, env.orders, i, p)
    requires t in db.core.trades && db.core.trades[t].positionId == p && db.core.trades[t].status.LegPending?
    requires forall u :: LeftOpen(db.core, env.orders, s.intents, u) && u != t ==> db.core.trades[u].positionId != p
    requires m < |s.intents| && n < |s.intents|
    requires EntryFill(db.core, env.orders, s.intents[m], t) && ExitFill(db.core, env.orders, s.intents[n], t)
    requires forall k :: 0 <= k < |s.intents| && EntryFill(db.core, env.orders, s.intents[k], t) ==> k == m
    requires forall k :: 0 <= k < |s.intents| && ExitFill(db.core, env.orders, s.intents[k], t) ==> k == n
    ensures var d := Pass(db, env, s).db.core; p in d.positions && (d.positions[p].state.Closed? <==> m < n)
  {
    AbortsIff(db, env, s, p);
    assert ExitAfterEntry(db.core, env.orders, s.intents, t) <==> m < n;
    assert SomeEntry(db.core, env.orders, s.intents, t);
  }
}
