// Which breaks a finished pass records, in full and once each, read off the tables it
// found and leaves, the orderbook and the broker's holdings.

module RecoveryBreaks {
  import opened Broker
  import opened Recovery
  import opened Confluence
  import opened RecoveryConfluence
  import opened RecoveryRuns
  import opened CrashRestart
  import opened RepeatPass
  import opened RecoveryAlarms
  import opened RecoveryRows
  import opened RecoveryPositions

  /** The ids of the orders under the tag, in the order of the orderbook. */
  ghost predicate IdsUnder(orders: seq<BrokerOrder>, tag: string, ids: seq<string>) {
    exists at: seq<nat> :: IdsAt(orders, tag, ids, at)
  }

  ghost predicate Ascending(x: seq<nat>) {
    forall m, n :: 0 <= m < n < |x| ==> x[m] < x[n]
  }

  ghost predicate IdsAt(orders: seq<BrokerOrder>, tag: string, ids: seq<string>, at: seq<nat>) {
    && |at| == |ids| && Ascending(at)
    && (forall m: nat :: m in at <==> Carries(orders, m, tag))
    && forall n :: 0 <= n < |at| ==> at[n] < |orders| && ids[n] == orders[at[n]].id
  }

  lemma {:induction false} IdsMatch(orders: seq<BrokerOrder>, tag: string) returns (at: seq<nat>)
    ensures IdsAt(orders, tag, OrderIdsOf(Matches(orders, tag)), at)
  {
    if orders == [] {
      at := [];
    } else {
      var later := IdsMatch(orders[1..], tag);
      var shifted := Shift(orders, tag, OrderIdsOf(Matches(orders[1..], tag)), later);
      IdsOfMatches(orders, tag);
      assert Carries(orders, 0, tag) <==> orders[0].tag == tag && tag != "";
      if Carries(orders, 0, tag) {
        at := [0] + shifted;
        WithFirst(orders, tag, OrderIdsOf(Matches(orders[1..], tag)), shifted);
      } else {
        at := shifted;
      }
    }
  }

  /** The later places, seen from the whole orderbook. */
  ghost predicate LaterIds(orders: seq<BrokerOrder>, tag: string, ids: seq<string>, at: seq<nat>) {
    && |at| == |ids| && Ascending(at)
    && (forall m: nat :: m in at <==> m >= 1 && Carries(orders, m, tag))
    && forall n :: 0 <= n < |at| ==> at[n] < |orders| && ids[n] == orders[at[n]].id
  }

  lemma Shift(orders: seq<BrokerOrder>, tag: string, ids: seq<string>, later: seq<nat>) returns (shifted: seq<nat>)
    requires orders != [] && IdsAt(orders[1..], tag, ids, later)
    ensures LaterIds(orders, tag, ids, shifted)
  {
    shifted := seq(|later|, n requires 0 <= n < |later| => later[n] + 1);
    forall m: nat ensures m in shifted <==> m >= 1 && Carries(orders, m, tag) {
      if m in shifted {
        var n :| 0 <= n < |shifted| && shifted[n] == m;
        assert later[n] in later && Carries(orders[1..], m - 1, tag);
      }
      if m >= 1 && Carries(orders, m, tag) {
        assert Carries(orders[1..], m - 1, tag);
        var n :| 0 <= n < |later| && later[n] == m - 1;
        assert shifted[n] == m;
      }
    }
  }

  lemma WithFirst(orders: seq<BrokerOrder>, tag: string, ids: seq<string>, at: seq<nat>)
    requires LaterIds(orders, tag, ids, at) && Carries(orders, 0, tag)
    ensures IdsAt(orders, tag, [orders[0].id] + ids, [0] + at)
  {
    forall n | 0 <= n < |at| ensures at[n] >= 1 { assert at[n] in at; }
    forall m: nat ensures m in [0] + at <==> Carries(orders, m, tag) {}
  }

  lemma IdsOfMatches(orders: seq<BrokerOrder>, tag: string)
    requires orders != []
    ensures OrderIdsOf(Matches(orders, tag)) ==
      (if orders[0].tag == tag && tag != "" then [orders[0].id] else []) + OrderIdsOf(Matches(orders[1..], tag))
  {
    var rest := Matches(orders[1..], tag);
    assert ([orders[0]] + rest)[1..] == rest && [] + rest == rest;
  }

  /** There is only one such list. */
  lemma IdsAgree(orders: seq<BrokerOrder>, tag: string, a: seq<string>, x: seq<nat>, b: seq<string>, y: seq<nat>)
    requires IdsAt(orders, tag, a, x) && IdsAt(orders, tag, b, y)
    ensures a == b
  {
    AscendingAgree(x, y);
  }

  lemma FirstAndRest(x: seq<nat>)
    requires Ascending(x) && x != []
    ensures x[0] in x && Ascending(x[1..]) && forall m :: m in x[1..] <==> m in x && m > x[0]
    ensures forall m :: m in x ==> m >= x[0]
  {
    assert x == [x[0]] + x[1..];
  }

  lemma {:induction false} AscendingAgree(x: seq<nat>, y: seq<nat>)
    requires Ascending(x) && Ascending(y) && forall m :: m in x <==> m in y
    ensures x == y
  {
    if x != [] {
      assert x[0] in y;
      FirstAndRest(x);
      FirstAndRest(y);
      AscendingAgree(x[1..], y[1..]);
      assert x == [x[0]] + x[1..] && y == [y[0]] + y[1..];
    } else if y != [] {
      FirstAndRest(y);
    }
  }

  lemma IdsAreMatches(orders: seq<BrokerOrder>, tag: string, ids: seq<string>)
    ensures IdsUnder(orders, tag, ids) <==> ids == OrderIdsOf(Matches(orders, tag))
  {
    var x := IdsMatch(orders, tag);
    if IdsUnder(orders, tag, ids) {
      var at :| IdsAt(orders, tag, ids, at);
      IdsAgree(orders, tag, OrderIdsOf(Matches(orders, tag)), x, ids, at);
    }
  }

  // ---- The three kinds of break ----

  /** An order under a tag that no intent has: all orders under it are named. */
  ghost predicate OrphanBreakOf(c: Core, orders: seq<BrokerOrder>, tag: string, b: Break) {
    && (exists m: nat :: Carries(orders, m, tag)) && Unknown(c, tag)
    && b.kind.OrphanFill? && b.order.None? && b.detail.OrderIds? && IdsUnder(orders, tag, b.detail.ids)
  }

  ghost predicate Unknown(c: Core, tag: string) {
    forall i :: i in c.intents ==> c.intents[i].tag != tag
  }

  /** An unresolved intent with several orders, or with one that ended partly filled, or
      complete at another quantity than intended. */
  ghost predicate IntentBreakOf(c: Core, orders: seq<BrokerOrder>, i: Id, b: Break) {
    && i in c.intents && !Resolved(c.intents[i].status) && b.kind.QuantityMismatch?
    && match b.detail
       case OrderIds(ids) => b.order.None? && |ids| >= 2 && IdsUnder(orders, c.intents[i].tag, ids)
       case FilledThen(filled, final) =>
         exists m: nat :: FilledAt(c, orders, i, m) && b.order.Some? && IsRowOf(c, i, orders[m], b.order.value)
           && !final.Complete? && final == orders[m].status && filled == orders[m].filled
       case FilledAgainst(filled, expected) =>
         exists m: nat :: FilledAt(c, orders, i, m) && b.order.Some? && IsRowOf(c, i, orders[m], b.order.value)
           && orders[m].status.Complete? && filled == orders[m].filled && expected == c.intents[i].quantity != filled
       case _ => false
  }

  function KindOf(reason: Reason): BreakKind {
    match reason
    case PartialEntry(_, _) => PartialEntryBreak
    case BrokerFlat(_) => BrokerFlatDbOpen
    case _ => Other
  }

  /** A position in ERROR for its legs' sake, or waiting for a finalization nobody provides. */
  ghost predicate PositionBreakOf(c: Core, d: Core, env: Env, p: Id, b: Break) {
    && p in c.positions && !c.positions[p].state.Closed? && !c.positions[p].state.Errored?
    && !DoubledOn(c, env.orders, p) && b.order.None?
    && var (was, now) := (c.positions[p], Settles(c.positions[p], d.trades, p, env));
       match b.detail
       case Because(reason) => now.state.Errored? && now.message == Some(reason) && b.kind == KindOf(reason)
       case NoReconciler =>
         && b.kind.Other? && env.hook.None? && now.state == was.state
         && (if was.state.EntryPending? then true
             else was.state.ExitPending? && Standing(d.trades, p, LegClosed) != {})
       case _ => false
  }

  ghost predicate PassBreak(c: Core, d: Core, env: Env, b: Break) {
    match b.subject
    case OfTag(tag) => OrphanBreakOf(c, env.orders, tag, b)
    case OfIntent(i) => IntentBreakOf(c, env.orders, i, b)
    case OfPosition(p) => PositionBreakOf(c, d, env, p, b)
  }

  // ---- Intents ----

  lemma NoCarrier(orders: seq<BrokerOrder>, tag: string)
    ensures (exists m: nat :: Carries(orders, m, tag)) <==> Matches(orders, tag) != []
  {
    if m: nat :| Carries(orders, m, tag) { SomeMatch(orders, tag, m); } else { NoMatch(orders, tag); }
  }

  lemma IntentBreaksAre(c: Core, orders: seq<BrokerOrder>, i: Id, b: Break)
    requires Attributable(c, orders) && InDoubt(c, i) && !Raises(c, orders, i)
    ensures b in IntentBreaks(c, orders, i) <==> b.subject == OfIntent(i) && IntentBreakOf(c, orders, i, b)
  {
    var tag := c.intents[i].tag;
    if b.detail.OrderIds? { IdsAreMatches(orders, tag, b.detail.ids); }
    SameLength(Matches(orders, tag));
    if |Matches(orders, tag)| == 1 {
      OneMatch(orders, tag);
      var m: nat :| Sole(orders, m, tag) && Matches(orders, tag) == [orders[m]];
      SoleRow(c, orders, i, m);
      forall n: nat ensures FilledAt(c, orders, i, n) ==> n == m {
        assert Sole(orders, n, tag) ==> Carries(orders, n, tag);
      }
      assert FilledAt(c, orders, i, m) <==> EndedFilled(orders[m]);
      SoleIntentBreaks(c, orders, i, orders[m]);
      SoleBreaks(c, orders, i, m, b);
    } else {
      forall m: nat ensures !FilledAt(c, orders, i, m) {
        if FilledAt(c, orders, i, m) { SoleMatch(orders, tag, m); }
      }
    }
  }

  /** The breaks of an intent whose only order at the broker is `b`, on row `k`. */
  function BreaksFor(i: Id, quantity: nat, b: BrokerOrder, k: OrderKey): seq<Break> {
    if !EndedFilled(b) then []
    else if !b.status.Complete? then [Break(QuantityMismatch, OfIntent(i), Some(k), FilledThen(b.filled, b.status))]
    else if b.filled != quantity then [Break(QuantityMismatch, OfIntent(i), Some(k), FilledAgainst(b.filled, quantity))]
    else []
  }

  lemma SoleIntentBreaks(c: Core, orders: seq<BrokerOrder>, i: Id, b: BrokerOrder)
    requires InDoubt(c, i) && !Raises(c, orders, i) && Matches(orders, c.intents[i].tag) == [b]
    ensures IntentBreaks(c, orders, i) == BreaksFor(i, c.intents[i].quantity, b, RowKey(c, i, b))
  {
    assert Judge(orders, c.intents[i].tag) == JudgeOrder(b);
  }

  lemma SoleBreaks(c: Core, orders: seq<BrokerOrder>, i: Id, m: nat, b: Break)
    requires i in c.intents && !Resolved(c.intents[i].status) && m < |orders|
    requires forall k :: IsRowOf(c, i, orders[m], k) <==> k == RowKey(c, i, orders[m])
    requires b.detail.OrderIds? ==> |b.detail.ids| < 2 || !IdsUnder(orders, c.intents[i].tag, b.detail.ids)
    requires forall n: nat :: FilledAt(c, orders, i, n) ==> n == m
    requires FilledAt(c, orders, i, m) <==> EndedFilled(orders[m])
    ensures b in BreaksFor(i, c.intents[i].quantity, orders[m], RowKey(c, i, orders[m])) <==>
      b.subject == OfIntent(i) && IntentBreakOf(c, orders, i, b)
  {
  }

  lemma SoleRow(c: Core, orders: seq<BrokerOrder>, i: Id, m: nat)
    requires Attributable(c, orders) && InDoubt(c, i) && !Raises(c, orders, i)
    requires Sole(orders, m, c.intents[i].tag) && Matches(orders, c.intents[i].tag) == [orders[m]]
    ensures forall k :: IsRowOf(c, i, orders[m], k) <==> k == RowKey(c, i, orders[m])
  {
    assert Judge(orders, c.intents[i].tag).Single() && Judge(orders, c.intents[i].tag).b == orders[m];
    NotRefusedLocatable(c, orders, i);
    ResolvesOwnRow(c, orders, i);
    RowKeyIsOwn(c, orders, i);
  }

  lemma {:induction false} SameLength(orders: seq<BrokerOrder>)
    ensures |OrderIdsOf(orders)| == |orders|
  {
    if orders != [] { SameLength(orders[1..]); }
  }

  lemma UnitKeepsBreaks(c: Core, orders: seq<BrokerOrder>, x: Id, i: Id)
    requires Attributable(c, orders) && x != i
    ensures IntentBreaks(ReconcileIntent(c, orders, x), orders, i) == IntentBreaks(c, orders, i)
  {
    IntentIgnoresOthers(c, orders, x, i);
  }

  lemma {:induction false} IntentPhaseBreaks(db: Db, env: Env, scan: seq<Id>)
    requires Attributable(db.core, env.orders) && Distinct(scan) && !RunIntents(db, env, scan).raised
    ensures RunIntents(db, env, scan).db.breaks == db.breaks + Flat(IntentBreaksIn(db.core, env.orders), scan)
    decreases |scan|
  {
    if scan == [] {
      assert db.breaks + [] == db.breaks;
    } else {
      var x, rest, orders := scan[0], scan[1..], env.orders;
      var next := AfterIntent(db, env, x);
      IntentKeepsAttributable(db.core, orders, x);
      forall i | i in rest ensures IntentBreaksIn(next.core, orders)(i) == IntentBreaksIn(db.core, orders)(i) {
        UnitKeepsBreaks(db.core, orders, x, i);
      }
      FlatCongruent(IntentBreaksIn(next.core, orders), IntentBreaksIn(db.core, orders), rest);
      IntentPhaseBreaks(next, env, rest);
      Regroup(db.breaks, IntentBreaks(db.core, orders, x), Flat(IntentBreaksIn(db.core, orders), rest));
    }
  }

  lemma IntentBreaksListed(c: Core, orders: seq<BrokerOrder>, scan: seq<Id>, b: Break)
    requires Attributable(c, orders) && IntentScan(c, scan) && forall i :: i in scan ==> !Raises(c, orders, i)
    ensures b in Flat(IntentBreaksIn(c, orders), scan) <==>
      b.subject.OfIntent? && IntentBreakOf(c, orders, b.subject.i, b)
  {
    FlatMembers(IntentBreaksIn(c, orders), scan, b);
    forall i | i in scan
      ensures b in IntentBreaksIn(c, orders)(i) <==> b.subject == OfIntent(i) && IntentBreakOf(c, orders, i, b)
    {
      IntentBreaksAre(c, orders, i, b);
    }
    if b.subject.OfIntent? && IntentBreakOf(c, orders, b.subject.i, b) {
      assert InDoubt(c, b.subject.i);
      assert b in IntentBreaksIn(c, orders)(b.subject.i);
    }
  }

  // ---- Orphans ----

  lemma OrphanBreaksListed(c: Core, env: Env, tags: seq<string>, b: Break)
    requires TagScan(env, tags)
    ensures b in Flat(OrphanBreaksIn(c, env.orders), tags) <==>
      b.subject.OfTag? && OrphanBreakOf(c, env.orders, b.subject.tag, b)
  {
    FlatMembers(OrphanBreaksIn(c, env.orders), tags, b);
    forall tag ensures tag in tags <==> exists m: nat :: Carries(env.orders, m, tag) {
      if tag in tags {
        var x :| x in env.orders && x.tag == tag && tag != "";
        var m: nat :| m < |env.orders| && env.orders[m] == x;
        assert Carries(env.orders, m, tag);
      }
      if m: nat :| Carries(env.orders, m, tag) { assert env.orders[m] in env.orders; }
    }
    if b.subject.OfTag? {
      if b.detail.OrderIds? { IdsAreMatches(env.orders, b.subject.tag, b.detail.ids); }
      if OrphanBreakOf(c, env.orders, b.subject.tag, b) {
        assert b in OrphanBreaksIn(c, env.orders)(b.subject.tag);
      }
    }
  }

  // ---- Positions ----

  lemma PositionBreaksAre(c: Core, env: Env, p: Id, b: Break)
    requires Unfinished(c, p)
    ensures b in PositionBreaks(c, env, p) <==>
      b.subject == OfPosition(p) && b.order.None? &&
      var (was, now) := (c.positions[p], Settles(c.positions[p], c.trades, p, env));
      match b.detail
      case Because(reason) => now.state.Errored? && now.message == Some(reason) && b.kind == KindOf(reason)
      case NoReconciler =>
        && b.kind.Other? && env.hook.None? && now.state == was.state
        && (if was.state.EntryPending? then true else was.state.ExitPending? && Standing(c.trades, p, LegClosed) != {})
      case _ => false
  {
    RepairIs(c, env, p);
  }

  lemma PositionBreaksListed(c: Core, mid: Core, env: Env, scan: seq<Id>, b: Break)
    requires PositionScan(mid, scan) && mid.positions.Keys == c.positions.Keys
    requires forall p :: p in c.positions ==> mid.positions[p] == AfterDuplicates(c, env.orders, p)
    ensures b in Flat(PositionBreaksIn(mid, env), scan) <==>
      b.subject.OfPosition? && PositionBreakOf(c, mid, env, b.subject.p, b)
  {
    FlatMembers(PositionBreaksIn(mid, env), scan, b);
    forall p | p in scan
      ensures b in PositionBreaksIn(mid, env)(p) <==> b.subject == OfPosition(p) && PositionBreakOf(c, mid, env, p, b)
    {
      PositionBreaksAre(mid, env, p, b);
    }
    if b.subject.OfPosition? && PositionBreakOf(c, mid, env, b.subject.p, b) {
      assert Unfinished(mid, b.subject.p);
      assert b in PositionBreaksIn(mid, env)(b.subject.p);
    }
  }

  // ---- The pass ----

  lemma BreaksInThree(db: Db, env: Env, s: Scans)
    requires Attributable(db.core, env.orders) && Scanned(db, env, s) && Distinct(s.intents) && !Pass(db, env, s).raised
    ensures var mid := RunIntents(db, env, s.intents).db.core;
      Pass(db, env, s).db.breaks == db.breaks + (Flat(IntentBreaksIn(db.core, env.orders), s.intents)
        + Flat(OrphanBreaksIn(mid, env.orders), s.tags) + Flat(PositionBreaksIn(mid, env), s.positions))
  {
    var mid := RunIntents(db, env, s.intents).db.core;
    var intents, orphans, positions := Flat(IntentBreaksIn(db.core, env.orders), s.intents),
      Flat(OrphanBreaksIn(mid, env.orders), s.tags), Flat(PositionBreaksIn(mid, env), s.positions);
    IntentPhaseBreaks(db, env, s.intents);
    OrphanPhase(mid, env.orders, s.tags);
    PositionPhaseBreaks(Db(mid, db.breaks + intents + orphans), env, s.positions);
    Regroup(db.breaks, intents, orphans);
    Regroup(db.breaks, intents + orphans, positions);
  }

  lemma AfterIntentPhase(db: Db, env: Env, s: Scans)
    requires Attributable(db.core, env.orders) && Scanned(db, env, s) && !Pass(db, env, s).raised
    ensures var mid := RunIntents(db, env, s.intents).db.core;
      && mid.positions.Keys == db.core.positions.Keys && Pass(db, env, s).db.core.trades == mid.trades
      && forall p :: p in db.core.positions ==> mid.positions[p] == AfterDuplicates(db.core, env.orders, p)
  {
    IntentsFreeze(db, env, s.intents);
    PassKeepsLegs(db, env, s);
    forall p | p in db.core.positions
      ensures RunIntents(db, env, s.intents).db.core.positions[p] == AfterDuplicates(db.core, env.orders, p)
    {
      AfterIntents(db, env, s.intents, p);
      DuplicatesAreDoubled(db.core, env.orders, p);
    }
  }

  /** The breaks a finished pass records are exactly those that its tables, before and
      after, and what the broker says call for. */
  lemma BreaksExactly(db: Db, env: Env, s: Scans, b: Break)
    requires Attributable(db.core, env.orders) && Scanned(db, env, s) && Distinct(s.intents) && !Pass(db, env, s).raised
    ensures var d := Pass(db, env, s).db;
      && db.breaks <= d.breaks
      && (b in d.breaks[|db.breaks|..] <==> PassBreak(db.core, d.core, env, b))
  {
    var mid := RunIntents(db, env, s.intents).db.core;
    BreaksInThree(db, env, s);
    IntentPhase(db, env, s.intents);
    AfterIntentPhase(db, env, s);
    IntentBreaksListed(db.core, env.orders, s.intents, b);
    SameTags(db, env, s);
    OrphanBreaksListed(mid, env, s.tags, b);
    PositionBreaksListed(db.core, mid, env, s.positions, b);
    SamePositionBreaks(db.core, mid, Pass(db, env, s).db.core, env, b);
  }

  lemma SameTags(db: Db, env: Env, s: Scans)
    requires !Pass(db, env, s).raised
    ensures var mid := RunIntents(db, env, s.intents).db.core;
      forall tag :: Unknown(mid, tag) <==> Unknown(db.core, tag)
  {
    TagsKept(db, env, s.intents);
  }

  lemma {:induction false} TagsKept(db: Db, env: Env, scan: seq<Id>)
    ensures var d := RunIntents(db, env, scan).db.core;
      && d.intents.Keys == db.core.intents.Keys
      && forall i :: i in d.intents ==> d.intents[i].tag == db.core.intents[i].tag
    decreases |scan|
  {
    if scan != [] && !Raises(db.core, env.orders, scan[0]) {
      TagsKept(AfterIntent(db, env, scan[0]), env, scan[1..]);
    }
  }

  lemma SamePositionBreaks(c: Core, mid: Core, d: Core, env: Env, b: Break)
    requires d.trades == mid.trades
    ensures b.subject.OfPosition? ==>
      (PositionBreakOf(c, mid, env, b.subject.p, b) <==> PositionBreakOf(c, d, env, b.subject.p, b))
  {
  }

  // ---- Once each ----

  ghost predicate OncePerSubject(breaks: seq<Break>) {
    forall m, n :: 0 <= m < n < |breaks| ==> breaks[m].subject != breaks[n].subject
  }

  lemma {:induction false} FlatOnce<T>(f: T -> seq<Break>, ids: seq<T>, subject: T -> Subject)
    requires Distinct(ids) && forall x, y :: subject(x) == subject(y) ==> x == y
    requires forall x | x in ids :: |f(x)| <= 1 && forall b :: b in f(x) ==> b.subject == subject(x)
    ensures OncePerSubject(Flat(f, ids))
    ensures forall b :: b in Flat(f, ids) ==> exists x :: x in ids && b.subject == subject(x)
  {
    if ids != [] {
      var a, rest := ids[0], ids[1..];
      assert a in ids && ids == [a] + rest;
      FlatOnce(f, rest, subject);
      assert a !in rest;
      var tail := Flat(f, rest);
      forall b | b in tail ensures b.subject != subject(a) {
        var x :| x in rest && b.subject == subject(x);
      }
      forall n | 0 <= n < |tail| ensures tail[n].subject != subject(a) { assert tail[n] in tail; }
      if f(a) != [] { assert f(a)[0] in f(a) && f(a) == [f(a)[0]]; }
    }
  }

  lemma IntentsOnce(c: Core, orders: seq<BrokerOrder>, scan: seq<Id>)
    requires Distinct(scan)
    ensures var bs := Flat(IntentBreaksIn(c, orders), scan);
      OncePerSubject(bs) && forall b :: b in bs ==> b.subject.OfIntent?
  {
    FlatOnce(IntentBreaksIn(c, orders), scan, (i: Id) => OfIntent(i));
  }

  lemma TagsOnce(c: Core, orders: seq<BrokerOrder>, tags: seq<string>)
    requires Distinct(tags)
    ensures var bs := Flat(OrphanBreaksIn(c, orders), tags);
      OncePerSubject(bs) && forall b :: b in bs ==> b.subject.OfTag?
  {
    FlatOnce(OrphanBreaksIn(c, orders), tags, (t: string) => OfTag(t));
  }

  lemma PositionsOnce(c: Core, env: Env, scan: seq<Id>)
    requires Distinct(scan)
    ensures var bs := Flat(PositionBreaksIn(c, env), scan);
      OncePerSubject(bs) && forall b :: b in bs ==> b.subject.OfPosition?
  {
    FlatOnce(PositionBreaksIn(c, env), scan, (p: Id) => OfPosition(p));
  }

  lemma OnceTogether(a: seq<Break>, b: seq<Break>, c: seq<Break>)
    requires OncePerSubject(a) && OncePerSubject(b) && OncePerSubject(c)
    requires forall x :: x in a ==> x.subject.OfIntent?
    requires forall x :: x in b ==> x.subject.OfTag?
    requires forall x :: x in c ==> x.subject.OfPosition?
    ensures OncePerSubject(a + b + c)
  {
  }

  /** And it records at most one break about each intent, tag and position, when each
      query returns every row once. */
  lemma BreaksOnce(db: Db, env: Env, s: Scans)
    requires Attributable(db.core, env.orders) && Scanned(db, env, s) && !Pass(db, env, s).raised
    requires Distinct(s.intents) && Distinct(s.tags)
    ensures db.breaks <= Pass(db, env, s).db.breaks
    ensures OncePerSubject(Pass(db, env, s).db.breaks[|db.breaks|..])
  {
    var mid := RunIntents(db, env, s.intents).db.core;
    BreaksInThree(db, env, s);
    IntentsOnce(db.core, env.orders, s.intents);
    TagsOnce(mid, env.orders, s.tags);
    PositionsOnce(mid, env, s.positions);
    OnceTogether(Flat(IntentBreaksIn(db.core, env.orders), s.intents), Flat(OrphanBreaksIn(mid, env.orders), s.tags),
      Flat(PositionBreaksIn(mid, env), s.positions));
  }
}
