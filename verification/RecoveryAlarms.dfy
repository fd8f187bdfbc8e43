// What a pass leaves standing: every position it takes to ERROR is flagged, frozen
// and named in a break, and every other position's state fits its legs.

module RecoveryAlarms {
  import opened Broker
  import opened Recovery
  import opened RecoveryConfluence
  import opened CrashRestart
  import opened RepeatPass

  // ---- Errors are flagged ----

  /** The break is about the position itself, or about an intent of one of its legs. */
  predicate Concerns(c: Core, s: Subject, p: Id) {
    match s
    case OfPosition(q) => q == p
    case OfIntent(i) =>
      i in c.intents && c.intents[i].tradeId in c.trades && c.trades[c.intents[i].tradeId].positionId == p
    case OfTag(_) => false
  }

  /** A break recorded from the `n`-th on concerns the position. */
  ghost predicate BreakSince(db: Db, n: nat, p: Id) {
    exists m :: n <= m < |db.breaks| && Concerns(db.core, db.breaks[m].subject, p)
  }

  /** Marked for a human, its instance frozen, with a break recorded from the `n`-th on. */
  ghost predicate Flagged(db: Db, n: nat, p: Id) {
    p in db.core.positions &&
    var pos := db.core.positions[p];
    && pos.needsReconciliation && pos.message.Some?
    && (pos.instanceId in db.core.instances ==> db.core.instances[pos.instanceId] == Frozen)
    && BreakSince(db, n, p)
  }

  ghost predicate Alarmed(db: Db, n: nat, p: Id) {
    p in db.core.positions && (db.core.positions[p].state.Errored? ==> Flagged(db, n, p))
  }

  lemma BreakStays(db: Db, next: Db, n: nat, p: Id, more: seq<Break>)
    requires BreakSince(db, n, p) && next.breaks == db.breaks + more
    requires forall s: Subject :: Concerns(db.core, s, p) ==> Concerns(next.core, s, p)
    ensures BreakSince(next, n, p)
  {
    var m :| n <= m < |db.breaks| && Concerns(db.core, db.breaks[m].subject, p);
    assert next.breaks[m] == db.breaks[m];
  }

  lemma NewBreak(next: Db, before: seq<Break>, more: seq<Break>, n: nat, p: Id)
    requires next.breaks == before + more && n <= |before| && more != [] && Concerns(next.core, more[0].subject, p)
    ensures BreakSince(next, n, p)
  {
    assert next.breaks[|before|] == more[0];
  }

  lemma IntentUnitAlarms(db: Db, env: Env, x: Id, n: nat, p: Id)
    requires Alarmed(db, n, p) && n <= |db.breaks| && !Raises(db.core, env.orders, x)
    ensures Alarmed(AfterIntent(db, env, x), n, p)
    ensures AfterIntent(db, env, x).core.positions[p] == db.core.positions[p] ||
      AfterIntent(db, env, x).core.positions[p].state.Errored?
  {
    var next, more := AfterIntent(db, env, x), IntentBreaks(db.core, env.orders, x);
    if BreakSince(db, n, p) {
      BreakStays(db, next, n, p, more);
    }
    if next.core.positions[p] != db.core.positions[p] {
      NewBreak(next, db.breaks, more, n, p);
    }
  }

  ghost function AfterIntent(db: Db, env: Env, x: Id): Db {
    Db(ReconcileIntent(db.core, env.orders, x), db.breaks + IntentBreaks(db.core, env.orders, x))
  }

  function AfterPosition(db: Db, env: Env, q: Id): Db {
    Db(ReconcilePosition(db.core, env, q), db.breaks + PositionBreaks(db.core, env, q))
  }

  lemma PositionUnitAlarms(db: Db, env: Env, q: Id, n: nat, p: Id)
    requires Alarmed(db, n, p) && n <= |db.breaks|
    ensures Alarmed(AfterPosition(db, env, q), n, p)
  {
    var next, more := AfterPosition(db, env, q), PositionBreaks(db.core, env, q);
    if BreakSince(db, n, p) {
      BreakStays(db, next, n, p, more);
    }
    if q == p && RepairFor(db.core, env, q).MoveToError? {
      NewBreak(next, db.breaks, more, n, p);
    }
  }

  lemma {:induction false} IntentsAlarm(db: Db, env: Env, scan: seq<Id>, n: nat, p: Id)
    requires Alarmed(db, n, p) && n <= |db.breaks|
    ensures var d := RunIntents(db, env, scan).db;
      && Alarmed(d, n, p) && db.breaks <= d.breaks
      && (d.core.positions[p] == db.core.positions[p] || d.core.positions[p].state.Errored?)
    decreases |scan|
  {
    if scan != [] && !Raises(db.core, env.orders, scan[0]) {
      IntentUnitAlarms(db, env, scan[0], n, p);
      IntentsAlarm(AfterIntent(db, env, scan[0]), env, scan[1..], n, p);
    }
  }

  lemma {:induction false} PositionsAlarm(db: Db, env: Env, scan: seq<Id>, n: nat, p: Id)
    requires Alarmed(db, n, p) && n <= |db.breaks|
    ensures Alarmed(RunPositions(db, env, scan), n, p)
    decreases |scan|
  {
    if scan != [] {
      PositionUnitAlarms(db, env, scan[0], n, p);
      PositionsAlarm(AfterPosition(db, env, scan[0]), env, scan[1..], n, p);
    }
  }

  /** No error is silent: a position that a pass, finished or cut short by a refused
      write, takes to ERROR is marked for a human, its instance is frozen, and a
      break recorded by that very pass is about it. */
  lemma NoErrorIsSilent(db: Db, env: Env, s: Scans, p: Id)
    requires p in db.core.positions && !db.core.positions[p].state.Errored?
    ensures var d := Pass(db, env, s).db;
      p in d.core.positions && (d.core.positions[p].state.Errored? ==> Flagged(d, |db.breaks|, p))
  {
    var n := |db.breaks|;
    IntentsAlarm(db, env, s.intents, n, p);
    var run := RunIntents(db, env, s.intents);
    if !run.raised {
      var tagged := Db(run.db.core, run.db.breaks + OrphanBreaks(run.db.core, env.orders, s.tags));
      if BreakSince(run.db, n, p) {
        BreakStays(run.db, tagged, n, p, OrphanBreaks(run.db.core, env.orders, s.tags));
      }
      PositionsAlarm(tagged, env, s.positions, n, p);
    }
  }

  // ---- Every position fits its legs ----

  ghost predicate SomeLeg(trades: map<Id, Trade>, p: Id, status: LegStatus) {
    exists t :: t in trades && trades[t].positionId == p && trades[t].status == status
  }

  /** Every open leg of the position is held at the broker, as far as that is known. */
  ghost predicate HeldAtBroker(trades: map<Id, Trade>, env: Env, p: Id) {
    env.held.Some? ==> forall t :: t in trades && trades[t].positionId == p && trades[t].status.LegOpen? ==>
      Holds(env.held.value, trades[t].symbol)
  }

  predicate Holds(held: seq<BrokerPosition>, symbol: string) {
    exists bp :: bp in held && bp.quantity != 0 && bp.symbol == symbol
  }

  /** Which state a finished pass may leave a position in that it found in the state
      `was`: an entry is open, closed or still pending only as its legs say, and so
      on; anything in between is an error. */
  ghost predicate FitsLegs(trades: map<Id, Trade>, env: Env, p: Id, was: PositionState, now: PositionState) {
    var active, pending, closed :=
      SomeLeg(trades, p, LegOpen), SomeLeg(trades, p, LegPending), SomeLeg(trades, p, LegClosed);
    match was
    case EntryPending =>
      (now.Errored? || (now.Closed? && !active) ||
        (active && !pending && now == if env.hook.Some? then PositionOpen else EntryPending))
    case ExitPending =>
      (now.Errored? || (now.ExitPending? && !closed) ||
        (closed && !active && now == if env.hook.Some? then Closed else ExitPending))
    case PositionOpen => now.Errored? || (now.PositionOpen? && HeldAtBroker(trades, env, p))
    case _ => now.Errored? || now == was
  }

  lemma LegsSeen(trades: map<Id, Trade>, p: Id, status: LegStatus)
    ensures LegsIn(Legs(trades, p), status) != {} <==> SomeLeg(trades, p, status)
  {
    if t :| t in LegsIn(Legs(trades, p), status) {
      assert trades[t].status == status;
    }
    if SomeLeg(trades, p, status) {
      var t :| t in trades && trades[t].positionId == p && trades[t].status == status;
      assert t in Legs(trades, p) && t in LegsIn(Legs(trades, p), status);
    }
  }

  lemma NoneMissing(trades: map<Id, Trade>, env: Env, p: Id)
    requires env.held.Some? && MissingSymbols(Legs(trades, p), env.held.value) == {}
    ensures HeldAtBroker(trades, env, p)
  {
    forall t | t in trades && trades[t].positionId == p && trades[t].status.LegOpen?
      ensures Holds(env.held.value, trades[t].symbol)
    {
      NotMissing(Legs(trades, p), env.held.value, t);
    }
  }

  lemma NotMissing(legs: map<Id, Trade>, held: seq<BrokerPosition>, t: Id)
    requires MissingSymbols(legs, held) == {} && t in legs && legs[t].status.LegOpen?
    ensures Holds(held, legs[t].symbol)
  {
    var wanted := set u | u in LegsIn(legs, LegOpen) :: legs[u].symbol;
    assert t in LegsIn(legs, LegOpen) && legs[t].symbol in wanted;
    assert legs[t].symbol in MissingSymbols(legs, held) || legs[t].symbol in HeldSymbols(held);
  }

  lemma UnitFitsLegs(c: Core, env: Env, p: Id)
    requires Unfinished(c, p)
    ensures var d := ReconcilePosition(c, env, p);
      p in d.positions && FitsLegs(c.trades, env, p, c.positions[p].state, d.positions[p].state)
  {
    LegsSeen(c.trades, p, LegOpen);
    LegsSeen(c.trades, p, LegPending);
    LegsSeen(c.trades, p, LegClosed);
    if c.positions[p].state.PositionOpen? && env.held.Some? && MissingSymbols(Legs(c.trades, p), env.held.value) == {} {
      NoneMissing(c.trades, env, p);
    }
  }

  /** After a finished pass every position fits its legs, or is in ERROR. */
  lemma PositionsFitLegs(db: Db, env: Env, s: Scans, p: Id)
    requires Scanned(db, env, s) && !Pass(db, env, s).raised && p in db.core.positions
    ensures var d := Pass(db, env, s).db.core;
      p in d.positions && FitsLegs(d.trades, env, p, db.core.positions[p].state, d.positions[p].state)
  {
    var run := RunIntents(db, env, s.intents);
    var mid := run.db.core;
    if db.core.positions[p].state.Errored? {
      ErrorsStay(db, env, s.intents, p);
    } else {
      IntentsAlarm(db, env, s.intents, |db.breaks|, p);
    }
    PositionPhase(Db(mid, run.db.breaks + OrphanBreaks(mid, env.orders, s.tags)), env, s.positions);
    PositionOutcome(mid, env, s.positions, p);
    if Unfinished(mid, p) {
      UnitFitsLegs(mid, env, p);
    }
  }

  lemma {:induction false} ErrorsStay(db: Db, env: Env, scan: seq<Id>, p: Id)
    requires p in db.core.positions && db.core.positions[p].state.Errored?
    ensures var d := RunIntents(db, env, scan).db.core; p in d.positions && d.positions[p].state.Errored?
    decreases |scan|
  {
    if scan != [] && !Raises(db.core, env.orders, scan[0]) {
      ErrorsStay(AfterIntent(db, env, scan[0]), env, scan[1..], p);
    }
  }

  // ---- Every in-doubt intent is answered ----

  ghost predicate Carries(orders: seq<BrokerOrder>, m: nat, tag: string) {
    m < |orders| && orders[m].tag == tag && tag != ""
  }

  ghost predicate Sole(orders: seq<BrokerOrder>, m: nat, tag: string) {
    Carries(orders, m, tag) && forall n: nat :: n != m ==> !Carries(orders, n, tag)
  }

  /** What the orderbook says of an in-doubt intent: no order under its tag, it failed;
      one, it is confirmed once that is finished with a fill, failed once finished
      without, and still in doubt before; several, it stays in doubt. */
  ghost predicate Answered(orders: seq<BrokerOrder>, tag: string, was: IntentStatus, now: IntentStatus) {
    && ((forall m: nat :: !Carries(orders, m, tag)) ==> now == Failed)
    && (forall m: nat :: Sole(orders, m, tag) ==>
          now == match orders[m].status
                 case Pending => was
                 case Open => was
                 case Complete => Confirmed
                 case _ => if orders[m].filled > 0 then Confirmed else Failed)
    && (forall m: nat, n: nat :: m != n && Carries(orders, m, tag) && Carries(orders, n, tag) ==> now == was)
  }

  /** The database knows what became of the intended order. */
  predicate Resolved(s: IntentStatus) {
    s.Confirmed? || s.Failed? || s.Abandoned?
  }

  function StatusBy(v: Verdict, was: IntentStatus): IntentStatus {
    match v
    case Fills(_) => Confirmed
    case Refuses(_) => Failed
    case Absent => Failed
    case _ => was
  }

  lemma IntentUnit(c: Core, orders: seq<BrokerOrder>, x: Id, i: Id)
    requires Attributable(c, orders) && !Raises(c, orders, x) && i in c.intents
    ensures var d := ReconcileIntent(c, orders, x); var it := c.intents[i];
      i in d.intents && d.intents[i] ==
        if i == x && InDoubt(c, i) then it.(status := StatusBy(Judge(orders, it.tag), it.status)) else it
  {
    if x != i {
      IntentIgnoresOthers(c, orders, x, i);
    }
  }

  lemma {:induction false} IntentOutcome(db: Db, env: Env, scan: seq<Id>, i: Id)
    requires Attributable(db.core, env.orders) && !RunIntents(db, env, scan).raised && i in db.core.intents
    ensures var d := RunIntents(db, env, scan).db.core; var it := db.core.intents[i];
      i in d.intents && d.intents[i] ==
        if i in scan && InDoubt(db.core, i) then it.(status := StatusBy(Judge(env.orders, it.tag), it.status)) else it
    decreases |scan|
  {
    if scan != [] {
      IntentKeepsAttributable(db.core, env.orders, scan[0]);
      IntentUnit(db.core, env.orders, scan[0], i);
      assert scan == [scan[0]] + scan[1..];
      IntentOutcome(AfterIntent(db, env, scan[0]), env, scan[1..], i);
    }
  }

  lemma {:induction false} NoMatch(orders: seq<BrokerOrder>, tag: string)
    requires forall m: nat :: !Carries(orders, m, tag)
    ensures Matches(orders, tag) == []
  {
    if orders != [] {
      assert !Carries(orders, 0, tag);
      forall m: nat ensures !Carries(orders[1..], m, tag) { assert !Carries(orders, m + 1, tag); }
      NoMatch(orders[1..], tag);
    }
  }

  lemma {:induction false} SomeMatch(orders: seq<BrokerOrder>, tag: string, m: nat)
    requires Carries(orders, m, tag)
    ensures |Matches(orders, tag)| >= 1
  {
    if m > 0 {
      SomeMatch(orders[1..], tag, m - 1);
    }
  }

  lemma {:induction false} SoleMatch(orders: seq<BrokerOrder>, tag: string, m: nat)
    requires Sole(orders, m, tag)
    ensures Matches(orders, tag) == [orders[m]]
  {
    if m > 0 {
      assert !Carries(orders, 0, tag);
      forall n: nat | n != m - 1 ensures !Carries(orders[1..], n, tag) { assert !Carries(orders, n + 1, tag); }
      SoleMatch(orders[1..], tag, m - 1);
    } else {
      forall n: nat ensures !Carries(orders[1..], n, tag) { assert !Carries(orders, n + 1, tag); }
      NoMatch(orders[1..], tag);
    }
  }

  lemma {:induction false} TwoMatches(orders: seq<BrokerOrder>, tag: string, m: nat, n: nat)
    requires m < n && Carries(orders, m, tag) && Carries(orders, n, tag)
    ensures |Matches(orders, tag)| >= 2
  {
    if m > 0 {
      TwoMatches(orders[1..], tag, m - 1, n - 1);
    } else {
      SomeMatch(orders[1..], tag, n - 1);
    }
  }

  /** The verdict on a tag is the orderbook's answer. */
  lemma JudgeAnswers(orders: seq<BrokerOrder>, tag: string, was: IntentStatus)
    ensures Answered(orders, tag, was, StatusBy(Judge(orders, tag), was))
  {
    if forall m: nat :: !Carries(orders, m, tag) {
      NoMatch(orders, tag);
    }
    forall m: nat | Sole(orders, m, tag) ensures Matches(orders, tag) == [orders[m]] { SoleMatch(orders, tag, m); }
    forall m: nat, n: nat | m != n && Carries(orders, m, tag) && Carries(orders, n, tag)
      ensures |Matches(orders, tag)| >= 2
    {
      TwoMatches(orders, tag, if m < n then m else n, if m < n then n else m);
    }
  }

  /** After a finished pass every unresolved intent has its answer, and every other
      intent is as it was. */
  lemma IntentsAnswered(db: Db, env: Env, s: Scans, i: Id)
    requires Attributable(db.core, env.orders) && Scanned(db, env, s) && !Pass(db, env, s).raised
    requires i in db.core.intents
    ensures var d := Pass(db, env, s).db.core; var it := db.core.intents[i];
      && i in d.intents && d.intents[i] == it.(status := d.intents[i].status)
      && (if Resolved(it.status) then d.intents[i] == it
          else Answered(env.orders, it.tag, it.status, d.intents[i].status))
  {
    var run := RunIntents(db, env, s.intents);
    IntentOutcome(db, env, s.intents, i);
    PositionPhase(Db(run.db.core, run.db.breaks + OrphanBreaks(run.db.core, env.orders, s.tags)), env, s.positions);
    PositionRunKeepsRows(run.db.core, env, s.positions);
    JudgeAnswers(env.orders, db.core.intents[i].tag, db.core.intents[i].status);
  }

  // ---- Legs follow the fills ----

  /** No in-doubt intent of the leg but `except` is a fill. */
  ghost predicate NoOtherFill(c: Core, orders: seq<BrokerOrder>, t: Id, except: Id) {
    forall x :: FillInDoubt(c, orders, x) && x != except ==> c.intents[x].tradeId != t
  }

  lemma UnitKeepsLeg(c: Core, orders: seq<BrokerOrder>, x: Id, t: Id, i: Id)
    requires NoOtherFill(c, orders, t, i) && t in c.trades && (x != i || !InDoubt(c, i))
    ensures var d := ReconcileIntent(c, orders, x);
      NoOtherFill(d, orders, t, i) && t in d.trades && d.trades[t] == c.trades[t]
  {
    var d := ReconcileIntent(c, orders, x);
    forall y | FillInDoubt(d, orders, y)
      ensures FillInDoubt(c, orders, y) && d.intents[y].tradeId == c.intents[y].tradeId {}
  }

  lemma {:induction false} LegKept(db: Db, env: Env, scan: seq<Id>, t: Id, i: Id)
    requires NoOtherFill(db.core, env.orders, t, i) && t in db.core.trades && !InDoubt(db.core, i)
    ensures var d := RunIntents(db, env, scan).db.core; t in d.trades && d.trades[t] == db.core.trades[t]
    decreases |scan|
  {
    if scan != [] && !Raises(db.core, env.orders, scan[0]) {
      UnitKeepsLeg(db.core, env.orders, scan[0], t, i);
      UnitKeepsSettledIntent(db.core, env.orders, scan[0], i);
      LegKept(AfterIntent(db, env, scan[0]), env, scan[1..], t, i);
    }
  }

  lemma UnitKeepsSettledIntent(c: Core, orders: seq<BrokerOrder>, x: Id, i: Id)
    requires !InDoubt(c, i)
    ensures !InDoubt(ReconcileIntent(c, orders, x), i)
  {
  }

  /** The leg after the fill of an entry or an exit was recorded on it at `price`. */
  predicate LegFilled(was: Trade, purpose: Purpose, price: Option<real>, now: Trade) {
    && now.positionId == was.positionId && now.symbol == was.symbol
    && match purpose
       case Entry =>
         && now.exitPrice == was.exitPrice && now.entryPrice == price
         && now.status == if was.status.LegPending? then LegOpen else was.status
       case Exit =>
         && now.entryPrice == was.entryPrice && now.exitPrice == price
         && now.status == if was.status.LegOpen? then LegClosed else was.status
  }

  lemma OwnUnitFillsLeg(c: Core, orders: seq<BrokerOrder>, i: Id)
    requires InDoubt(c, i) && !Raises(c, orders, i) && c.intents[i].tradeId in c.trades
    requires Judge(orders, c.intents[i].tag).Fills?
    ensures var (it, d) := (c.intents[i], ReconcileIntent(c, orders, i));
      && it.tradeId in d.trades && !InDoubt(d, i)
      && ResolveWrites(c, orders, i).fill.Some?
      && LegFilled(c.trades[it.tradeId], it.purpose, ResolveWrites(c, orders, i).fill, d.trades[it.tradeId])
      && (NoOtherFill(c, orders, it.tradeId, i) ==> NoOtherFill(d, orders, it.tradeId, i))
  {
    var d := ReconcileIntent(c, orders, i);
    forall y | y in d.intents && y != i ensures y in c.intents && d.intents[y] == c.intents[y] {}
  }

  lemma {:induction false} LegOutcome(db: Db, env: Env, scan: seq<Id>, i: Id)
    requires Attributable(db.core, env.orders) && !RunIntents(db, env, scan).raised && i in scan && InDoubt(db.core, i)
    requires var t := db.core.intents[i].tradeId; t in db.core.trades && NoOtherFill(db.core, env.orders, t, i)
    requires Judge(env.orders, db.core.intents[i].tag).Fills? && !Raises(db.core, env.orders, i)
    ensures var d := RunIntents(db, env, scan).db.core; var it := db.core.intents[i];
      && it.tradeId in d.trades
      && LegFilled(
           db.core.trades[it.tradeId], it.purpose, ResolveWrites(db.core, env.orders, i).fill, d.trades[it.tradeId])
    decreases |scan|
  {
    var x, orders, t := scan[0], env.orders, db.core.intents[i].tradeId;
    assert scan == [x] + scan[1..];
    if x == i {
      OwnUnitFillsLeg(db.core, orders, i);
      LegKept(AfterIntent(db, env, x), env, scan[1..], t, i);
    } else {
      IntentKeepsAttributable(db.core, orders, x);
      IntentIgnoresOthers(db.core, orders, x, i);
      UnitKeepsLeg(db.core, orders, x, t, i);
      LegOutcome(AfterIntent(db, env, x), env, scan[1..], i);
    }
  }

  lemma {:induction false} PositionsKeepLegs(db: Db, env: Env, scan: seq<Id>)
    ensures RunPositions(db, env, scan).core.trades == db.core.trades
    decreases |scan|
  {
    if scan != [] {
      PositionsKeepLegs(AfterPosition(db, env, scan[0]), env, scan[1..]);
    }
  }
}
