// Whole passes: what a pass computes whatever the scan order, when it completes,
// and what a crash between two units of work, followed by a restart, leads to.

module RecoveryRuns {
  import opened Broker
  import opened Recovery
  import opened Confluence
  import opened RecoveryConfluence

  // -------------------------------------------------------------- the phases

  ghost function IntentStep(orders: seq<BrokerOrder>): (Core, Id) -> Core {
    (c: Core, i: Id) => ReconcileIntent(c, orders, i)
  }

  ghost function PositionStep(env: Env): (Core, Id) -> Core {
    (c: Core, p: Id) => ReconcilePosition(c, env, p)
  }

  ghost function SaneFor(orders: seq<BrokerOrder>): Core -> bool {
    (c: Core) => Sane(c, orders)
  }

  ghost function AnyCore(): Core -> bool {
    (c: Core) => true
  }

  lemma IntentsConfluent(orders: seq<BrokerOrder>)
    ensures Confluent(SaneFor(orders), IntentStep(orders))
  {
    var inv, f := SaneFor(orders), IntentStep(orders);
    forall c, i | inv(c) ensures inv(f(c, i)) { IntentKeepsSane(c, orders, i); }
    forall c, i | inv(c) ensures f(f(c, i), i) == f(c, i) { IntentIdempotent(c, orders, i); }
    forall c, i, j | inv(c) ensures f(f(c, i), j) == f(f(c, j), i) { IntentsCommute(c, orders, i, j); }
  }

  lemma PositionsCommute(env: Env)
    ensures Keeps(AnyCore(), PositionStep(env)) && Commutes(AnyCore(), PositionStep(env))
  {
    forall c: Core, p: Id, q: Id
      ensures ReconcilePosition(ReconcilePosition(c, env, p), env, q) ==
        ReconcilePosition(ReconcilePosition(c, env, q), env, p)
    {
      TwoPositionsCommute(c, env, p, q);
    }
  }

  lemma PositionIsLocal(c: Core, env: Env, p: Id, q: Id)
    ensures var d := ReconcilePosition(c, env, q);
      && d.intents == c.intents && d.orders == c.orders && d.trades == c.trades
      && d.positions.Keys == c.positions.Keys
      && (p != q && p in c.positions ==> d.positions[p] == c.positions[p])
      && (p != q ==> RepairFor(d, env, p) == RepairFor(c, env, p))
  {
  }

  lemma TwoPositionsCommute(c: Core, env: Env, p: Id, q: Id)
    ensures ReconcilePosition(ReconcilePosition(c, env, p), env, q) ==
      ReconcilePosition(ReconcilePosition(c, env, q), env, p)
  {
    if p != q {
      PositionIsLocal(c, env, p, q);
      PositionIsLocal(c, env, q, p);
      var cp, cq := ReconcilePosition(c, env, p), ReconcilePosition(c, env, q);
      if RepairFor(c, env, p) != Nothing && RepairFor(c, env, q) != Nothing {
        UpdatesCommute(c.positions, p, cp.positions[p], q, cq.positions[q]);
        UpdatesCommute(c.instances, c.positions[p].instanceId, Frozen, c.positions[q].instanceId, Frozen);
      }
    }
  }

  /** A position that the pass takes to OPEN although one of its legs is flat at
      the broker: the next pass will move it to ERROR. */
  predicate LateFlat(c: Core, env: Env, p: Id) {
    RepairFor(c, env, p).FinalizeEntry? && env.hook.Some? && env.held.Some?
    && MissingSymbols(Legs(c.trades, p), env.held.value) != {}
  }

  ghost predicate NoLateFlat(c: Core, env: Env) {
    forall p :: !LateFlat(c, env, p)
  }

  ghost function NoLateFlatFor(env: Env): Core -> bool {
    (c: Core) => NoLateFlat(c, env)
  }

  /** The position row of `p` after its unit of work; `trades` and the legs stay. */
  lemma RowAfter(c: Core, env: Env, p: Id)
    requires p in c.positions && RepairFor(c, env, p) != Nothing
    ensures var (r, d) := (RepairFor(c, env, p), ReconcilePosition(c, env, p));
      && p in d.positions && d.trades == c.trades
      && (r.MoveToError? || r.AbortEntry? || (r.FinalizeExit? && env.hook.Some?) ==> d.positions[p].state.Ended())
      && (r.FinalizeEntry? && env.hook.Some? ==> d.positions[p].state.PositionOpen?)
      && (r.FinalizeEntry? || r.FinalizeExit? ==>
          d.(positions := c.positions) == c && (env.hook.None? ==>
            d.positions == c.positions[p := c.positions[p].(needsReconciliation := true)]))
  {
  }

  lemma PositionIdempotent(c: Core, env: Env, p: Id)
    requires !LateFlat(c, env, p)
    ensures ReconcilePosition(ReconcilePosition(c, env, p), env, p) == ReconcilePosition(c, env, p)
    ensures !LateFlat(ReconcilePosition(c, env, p), env, p)
  {
    var r, d := RepairFor(c, env, p), ReconcilePosition(c, env, p);
    if r != Nothing {
      RowAfter(c, env, p);
      if (r.FinalizeEntry? || r.FinalizeExit?) && env.hook.None? {
        assert RepairFor(d, env, p) == r;
        assert ReconcilePosition(d, env, p).positions == d.positions;
      } else {
        assert RepairFor(d, env, p) == Nothing;
      }
    }
  }

  lemma PositionsConfluent(env: Env)
    ensures Confluent(NoLateFlatFor(env), PositionStep(env))
  {
    var inv, f := NoLateFlatFor(env), PositionStep(env);
    forall c, q | inv(c) ensures inv(f(c, q)) && f(f(c, q), q) == f(c, q) {
      PositionIdempotent(c, env, q);
      forall p ensures !LateFlat(f(c, q), env, p) {
        assert !LateFlat(c, env, p);
        PositionIsLocal(c, env, p, q);
      }
    }
    PositionsCommute(env);
    forall c, p, q | inv(c) ensures f(f(c, p), q) == f(f(c, q), p) {
      TwoPositionsCommute(c, env, p, q);
    }
  }

  // -------------------------------------------------------- canonical outcomes

  /** Some listing of a set, each element once. */
  ghost function Listed(s: set<Id>): (ids: seq<Id>)
    ensures Distinct(ids) && forall x :: x in ids <==> x in s
  {
    if s == {} then [] else var x :| x in s; [x] + Listed(s - {x})
  }

  ghost function InDoubtIds(c: Core): set<Id> {
    set i | i in c.intents && InDoubt(c, i)
  }

  ghost function UnfinishedIds(c: Core): set<Id> {
    set p | p in c.positions && Unfinished(c, p)
  }

  /** The database once every in-doubt intent has been handled. */
  ghost function Settled(c: Core, orders: seq<BrokerOrder>): Core {
    Fold(IntentStep(orders), c, Listed(InDoubtIds(c)))
  }

  /** The database after both phases. */
  ghost function Repaired(c: Core, env: Env): Core {
    var mid := Settled(c, env.orders);
    Fold(PositionStep(env), mid, Listed(UnfinishedIds(mid)))
  }

  lemma {:induction false} DoubtOnlyShrinks(c: Core, orders: seq<BrokerOrder>, ids: seq<Id>, i: Id)
    requires Sane(c, orders)
    ensures var d := Fold(IntentStep(orders), c, ids);
      && Sane(d, orders)
      && (InDoubt(d, i) ==> InDoubt(c, i)) && (i !in ids ==> (InDoubt(d, i) <==> InDoubt(c, i)))
    decreases ids
  {
    if ids != [] {
      var c' := ReconcileIntent(c, orders, ids[0]);
      IntentKeepsSane(c, orders, ids[0]);
      if i != ids[0] { IntentIgnoresOthers(c, orders, ids[0], i); }
      DoubtOnlyShrinks(c', orders, ids[1..], i);
      assert ids == [ids[0]] + ids[1..];
    }
  }

  /** Any list that handles at least the in-doubt intents settles the database. */
  lemma SettlesAnyOrder(c: Core, orders: seq<BrokerOrder>, ids: seq<Id>)
    requires Sane(c, orders) && forall i | InDoubt(c, i) :: i in ids
    ensures Fold(IntentStep(orders), c, ids) == Settled(c, orders)
  {
    IntentsConfluent(orders);
    SameWork(SaneFor(orders), IntentStep(orders), c, ids, Listed(InDoubtIds(c)));
  }

  ghost predicate IntentsSettled(c: Core, orders: seq<BrokerOrder>) {
    forall i :: ReconcileIntent(c, orders, i) == c
  }

  lemma SettledIsSettled(c: Core, orders: seq<BrokerOrder>)
    requires Sane(c, orders)
    ensures Sane(Settled(c, orders), orders) && IntentsSettled(Settled(c, orders), orders)
  {
    var ids := Listed(InDoubtIds(c));
    forall i ensures ReconcileIntent(Settled(c, orders), orders, i) == Settled(c, orders) {
      DoubtOnlyShrinks(c, orders, ids, i);
      if i in ids {
        IntentsConfluent(orders);
        FoldSettles(SaneFor(orders), IntentStep(orders), c, ids, i);
      }
    }
    DoubtOnlyShrinks(c, orders, ids, 0);
  }

  /** Settling twice, or settling the rest after any prefix, settles alike. */
  lemma SettlesAfterPrefix(c: Core, orders: seq<BrokerOrder>, ids: seq<Id>)
    requires Sane(c, orders)
    ensures Settled(Fold(IntentStep(orders), c, ids), orders) == Settled(c, orders)
  {
    var d := Fold(IntentStep(orders), c, ids);
    var rest := Listed(InDoubtIds(d));
    FoldConcat(IntentStep(orders), c, ids, rest);
    forall i | InDoubt(c, i) ensures i in ids + rest { DoubtOnlyShrinks(c, orders, ids, i); }
    SettlesAnyOrder(c, orders, ids + rest);
  }

  // ----------------------------------------- settled intents and position steps

  ghost predicate SameRows(c: Core, d: Core) {
    d.intents == c.intents && d.orders == c.orders && d.trades == c.trades
  }

  lemma SameRowsSane(c: Core, d: Core, orders: seq<BrokerOrder>)
    requires Sane(c, orders) && SameRows(c, d)
    ensures Sane(d, orders)
  {
    forall i, j ensures Clash(d, orders, i, j) ==> Clash(c, orders, i, j) {
      if i in c.intents && j in c.intents {
        SameRowsSameWrites(c, d, orders, i);
        SameRowsSameWrites(c, d, orders, j);
      }
    }
  }

  /** Settled intents stay settled when positions move, as long as no ended one starts again. */
  lemma SettledOverSameRows(c: Core, d: Core, orders: seq<BrokerOrder>, i: Id)
    requires Attributable(c, orders) && Attributable(d, orders) && SameRows(c, d) && ReconcileIntent(c, orders, i) == c
    requires d.positions.Keys == c.positions.Keys
    requires forall q :: q in c.positions && c.positions[q].state.Ended() ==> d.positions[q].state.Ended()
    ensures ReconcileIntent(d, orders, i) == d
  {
    if InDoubt(c, i) {
      SameRowsSameWrites(c, d, orders, i);
      if !Raises(c, orders, i) {
        if Judge(orders, c.intents[i].tag).Duplicated? {
          ErrorNeedsLive(c, c.intents[i].tradeId);
        } else {
          var w := ResolveWrites(c, orders, i);
          assert Apply(c, i, w).intents == c.intents && Apply(c, i, w).orders == c.orders &&
            Apply(c, i, w).trades == c.trades;
        }
      }
    }
  }

  lemma ErrorNeedsLive(c: Core, t: Id)
    ensures ErrorPositionOfTrade(c, t) == c ==>
      (t in c.trades && c.trades[t].positionId in c.positions ==> c.positions[c.trades[t].positionId].state.Ended())
  {
    if t in c.trades && c.trades[t].positionId in c.positions && !c.positions[c.trades[t].positionId].state.Ended() {
      assert ErrorPositionOfTrade(c, t).positions[c.trades[t].positionId].state.Errored?;
    }
  }

  lemma EndedStaysEnded(c: Core, env: Env, p: Id)
    ensures var d := ReconcilePosition(c, env, p);
      forall q :: q in c.positions && c.positions[q].state.Ended() ==> q in d.positions && d.positions[q].state.Ended()
  {
  }

  lemma PositionsKeepIntentsSettled(c: Core, env: Env, p: Id)
    requires Sane(c, env.orders) && IntentsSettled(c, env.orders)
    ensures var d := ReconcilePosition(c, env, p); Sane(d, env.orders) && IntentsSettled(d, env.orders)
  {
    var d, orders := ReconcilePosition(c, env, p), env.orders;
    PositionIsLocal(c, env, p, p);
    SameRowsSane(c, d, orders);
    EndedStaysEnded(c, env, p);
    forall i ensures ReconcileIntent(d, orders, i) == d {
      assert ReconcileIntent(c, orders, i) == c;
      SettledOverSameRows(c, d, orders, i);
    }
  }

  lemma {:induction false} PositionRunKeepsSettled(c: Core, env: Env, ids: seq<Id>)
    requires Sane(c, env.orders) && IntentsSettled(c, env.orders)
    ensures var d := Fold(PositionStep(env), c, ids); Sane(d, env.orders) && IntentsSettled(d, env.orders)
    decreases ids
  {
    if ids != [] {
      PositionsKeepIntentsSettled(c, env, ids[0]);
      PositionRunKeepsSettled(ReconcilePosition(c, env, ids[0]), env, ids[1..]);
    }
  }

  lemma SettledUnchanged(c: Core, orders: seq<BrokerOrder>)
    requires IntentsSettled(c, orders)
    ensures Settled(c, orders) == c
  {
    FoldIdle(IntentStep(orders), c, Listed(InDoubtIds(c)));
  }

  lemma {:induction false} UnfinishedOnlyShrinks(c: Core, env: Env, ids: seq<Id>, p: Id)
    ensures var d := Fold(PositionStep(env), c, ids);
      (Unfinished(d, p) ==> Unfinished(c, p)) && (p !in ids ==> (Unfinished(d, p) <==> Unfinished(c, p)))
    decreases ids
  {
    if ids != [] {
      PositionIsLocal(c, env, p, ids[0]);
      UnfinishedOnlyShrinks(ReconcilePosition(c, env, ids[0]), env, ids[1..], p);
      assert ids == [ids[0]] + ids[1..];
    }
  }
}
