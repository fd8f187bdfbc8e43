// Whether the order in which the queries return their rows can matter: exactly when
// two fills in doubt clash on a leg.

module ScanOrder {
  import opened Broker
  import opened Recovery
  import opened Confluence
  import opened RecoveryConfluence
  import opened RecoveryRuns
  import opened CrashRestart
  import opened RecoveryAlarms
  import opened RecoveryAborts

  /** What the queries of one pass may return: every row once, in any order. */
  ghost predicate Possible(db: Db, env: Env, s: Scans) {
    Scanned(db, env, s) && Distinct(s.intents)
  }

  ghost predicate OrderIrrelevant(db: Db, env: Env) {
    forall a, b :: Possible(db, env, a) && Possible(db, env, b) ==> Pass(db, env, a).db.core == Pass(db, env, b).db.core
  }

  ghost function ListedTags(tags: set<string>): (list: seq<string>)
    ensures forall t :: t in list <==> t in tags
  {
    if tags == {} then [] else var t :| t in tags; [t] + ListedTags(tags - {t})
  }

  ghost function ScansFor(db: Db, env: Env, intents: seq<Id>): Scans {
    Scans(intents, ListedTags(TagSet(env.orders)), Listed(UnfinishedIds(RunIntents(db, env, intents).db.core)))
  }

  /** A list of all in-doubt intents that ends as asked. */
  ghost function Ending(c: Core, last: seq<Id>): seq<Id> {
    Listed(InDoubtIds(c) - (set i | i in last)) + last
  }

  lemma EndingScans(c: Core, last: seq<Id>)
    requires Distinct(last) && forall i :: i in last ==> InDoubt(c, i)
    ensures IntentScan(c, Ending(c, last)) && Distinct(Ending(c, last))
  {
    DistinctJoined(Listed(InDoubtIds(c) - (set i | i in last)), last);
  }

  lemma DistinctJoined(a: seq<Id>, b: seq<Id>)
    requires Distinct(a) && Distinct(b) && forall x :: x in a ==> x !in b
    ensures Distinct(a + b)
  {
    forall m | 0 <= m < |a| + |b| ensures if m < |a| then (a + b)[m] in a else (a + b)[m] in b {}
  }

  lemma PassKeepsLegs(db: Db, env: Env, intents: seq<Id>)
    requires Attributable(db.core, env.orders) && Recordable(db.core, env.orders)
    requires IntentScan(db.core, intents) && Distinct(intents)
    ensures var s := ScansFor(db, env, intents);
      Possible(db, env, s) && Pass(db, env, s).db.core.trades == RunIntents(db, env, intents).db.core.trades
      && !RunIntents(db, env, intents).raised
  {
    var run, s := RunIntents(db, env, intents), ScansFor(db, env, intents);
    IntentPhase(db, env, intents);
    PositionsKeepLegs(Db(run.db.core, run.db.breaks + OrphanBreaks(run.db.core, env.orders, s.tags)), env, s.positions);
  }

  // ---- Two fills of one purpose: the last price stays ----

  function PriceOf(t: Trade, purpose: Purpose): Option<real> {
    if purpose.Entry? then t.entryPrice else t.exitPrice
  }

  lemma {:induction false} LastFillStays(db: Db, env: Env, scan: seq<Id>, j: Id)
    requires Attributable(db.core, env.orders) && Recordable(db.core, env.orders)
    requires FillsLeg(db.core, env.orders, j) && j !in scan
    ensures var (d, it) := (RunIntents(db, env, scan + [j]).db.core, db.core.intents[j]);
      it.tradeId in d.trades && PriceOf(d.trades[it.tradeId], it.purpose) == ResolveWrites(db.core, env.orders, j).fill
    decreases |scan|
  {
    var orders := env.orders;
    if scan == [] {
      assert [j][1..] == [];
      assert RunIntents(db, env, [j]) == RunIntents(AfterIntent(db, env, j), env, []);
    } else {
      var x, rest := scan[0], scan[1..];
      assert scan == [x] + rest && (scan + [j])[0] == x && (scan + [j])[1..] == rest + [j];
      IntentKeepsAttributable(db.core, orders, x);
      forall y ensures !Raises(ReconcileIntent(db.core, orders, x), orders, y) {
        StillRecordable(db.core, orders, x, y);
      }
      IntentIgnoresOthers(db.core, orders, x, j);
      UnitMovesLeg(db.core, orders, x, db.core.intents[j].tradeId);
      LastFillStays(AfterIntent(db, env, x), env, rest, j);
    }
  }

  lemma PricesDiffer(db: Db, env: Env, i: Id, j: Id)
    requires Attributable(db.core, env.orders) && Recordable(db.core, env.orders) && Clash(db.core, env.orders, i, j)
    requires db.core.intents[i].purpose == db.core.intents[j].purpose
    ensures !OrderIrrelevant(db, env)
  {
    var c, t := db.core, db.core.intents[i].tradeId;
    var a, b := Ending(c, [i, j]), Ending(c, [j, i]);
    EndingScans(c, [i, j]);
    EndingScans(c, [j, i]);
    PassKeepsLegs(db, env, a);
    PassKeepsLegs(db, env, b);
    LastBut(a, i, j);
    LastBut(b, j, i);
    LastFillStays(db, env, a[..|a| - 1], j);
    LastFillStays(db, env, b[..|b| - 1], i);
    assert RunIntents(db, env, a).db.core.trades[t] != RunIntents(db, env, b).db.core.trades[t];
  }

  lemma LastBut(a: seq<Id>, i: Id, j: Id)
    requires Distinct(a) && |a| >= 2 && a[|a| - 2..] == [i, j]
    ensures a == a[..|a| - 1] + [j] && j !in a[..|a| - 1]
  {
    assert a[|a| - 2..][1] == a[|a| - 1];
  }

  // ---- An entry and an exit of a pending leg ----

  ghost function ExitsFirst(c: Core, orders: seq<BrokerOrder>, t: Id): seq<Id> {
    var exits := set x | x in InDoubtIds(c) && ExitFill(c, orders, x, t);
    Listed(exits) + Listed(InDoubtIds(c) - exits)
  }

  lemma NoExitAfterEntry(c: Core, orders: seq<BrokerOrder>, t: Id)
    ensures var a := ExitsFirst(c, orders, t); IntentScan(c, a) && Distinct(a) && !ExitAfterEntry(c, orders, a, t)
  {
    var exits := set x | x in InDoubtIds(c) && ExitFill(c, orders, x, t);
    var first, second := Listed(exits), Listed(InDoubtIds(c) - exits);
    var a := first + second;
    DistinctJoined(first, second);
    forall m | 0 <= m < |a| ensures if m < |first| then a[m] in first else a[m] in second {}
  }

  lemma StatusesDiffer(db: Db, env: Env, i: Id, j: Id)
    requires Attributable(db.core, env.orders) && Recordable(db.core, env.orders) && Clash(db.core, env.orders, i, j)
    requires db.core.intents[i].purpose.Entry? && db.core.intents[j].purpose.Exit?
    ensures !OrderIrrelevant(db, env)
  {
    var c, orders, t := db.core, env.orders, db.core.intents[i].tradeId;
    var a, b := Ending(c, [i, j]), ExitsFirst(c, orders, t);
    EndingScans(c, [i, j]);
    NoExitAfterEntry(c, orders, t);
    PassKeepsLegs(db, env, a);
    PassKeepsLegs(db, env, b);
    assert EntryFill(c, orders, a[|a| - 2], t) && ExitFill(c, orders, a[|a| - 1], t);
    PendingLegOutcome(db, env, a, t);
    PendingLegOutcome(db, env, b, t);
  }

  /** When every in-doubt intent can be recorded, a pass leaves the same tables whatever
      order its queries return their rows in, exactly when no two fills clash. */
  lemma OrderIrrelevantIff(db: Db, env: Env)
    requires Attributable(db.core, env.orders) && Recordable(db.core, env.orders)
    ensures OrderIrrelevant(db, env) <==> NoFillsClash(db.core, env.orders)
  {
    if NoFillsClash(db.core, env.orders) {
      forall a, b | Possible(db, env, a) && Possible(db, env, b)
        ensures Pass(db, env, a).db.core == Pass(db, env, b).db.core
      {
        PassIsDeterministic(db, env, a);
        PassIsDeterministic(db, env, b);
      }
    } else {
      var i, j :| Clash(db.core, env.orders, i, j);
      match (db.core.intents[i].purpose, db.core.intents[j].purpose)
      case (Entry, Exit) => StatusesDiffer(db, env, i, j);
      case (Exit, Entry) => StatusesDiffer(db, env, j, i);
      case (_, _) => PricesDiffer(db, env, i, j);
    }
  }
}
