// The reconciliation engine itself: it walks the ids its queries return and
// changes rows in place, one committed unit of work at a time. Each method is
// proved against the value-level account in `Recovery`.

module RecoveryEngine {
  import opened Broker
  import opened Recovery
  import opened Confluence
  import opened CrashRestart

  datatype Lookup = NoRow | OneRow(key: OrderKey) | ManyRows

  lemma {:induction false} MatchesSnoc(orders: seq<BrokerOrder>, b: BrokerOrder, tag: string)
    ensures Matches(orders + [b], tag) == Matches(orders, tag) + (if b.tag == tag && tag != "" then [b] else [])
  {
    if orders == [] {
      assert orders + [b] == [b] && Matches([b][1..], tag) == [];
    } else {
      assert (orders + [b])[0] == orders[0] && (orders + [b])[1..] == orders[1..] + [b];
      MatchesSnoc(orders[1..], b, tag);
    }
  }

  function At(grouped: map<string, seq<BrokerOrder>>, tag: string): seq<BrokerOrder> {
    if tag in grouped then grouped[tag] else []
  }

  lemma GroupSnoc(grouped: map<string, seq<BrokerOrder>>, orders: seq<BrokerOrder>, b: BrokerOrder)
    requires grouped.Keys == TagSet(orders) && forall tag :: At(grouped, tag) == Matches(orders, tag)
    ensures var next := if b.tag != "" then grouped[b.tag := At(grouped, b.tag) + [b]] else grouped;
      next.Keys == TagSet(orders + [b]) && forall tag :: At(next, tag) == Matches(orders + [b], tag)
  {
    forall tag
      ensures Matches(orders + [b], tag) == Matches(orders, tag) + if b.tag == tag && tag != "" then [b] else []
    {
      MatchesSnoc(orders, b, tag);
    }
    forall x ensures x in orders + [b] <==> x in orders || x == b {}
  }

  method GroupOrdersByTag(orders: seq<BrokerOrder>) returns (grouped: map<string, seq<BrokerOrder>>)
    ensures grouped.Keys == TagSet(orders)
    ensures forall tag :: At(grouped, tag) == Matches(orders, tag)
  {
    grouped := map[];
    for n := 0 to |orders|
      invariant grouped.Keys == TagSet(orders[..n])
      invariant forall tag :: At(grouped, tag) == Matches(orders[..n], tag)
    {
      var order := orders[n];
      assert orders[..n + 1] == orders[..n] + [order];
      GroupSnoc(grouped, orders[..n], order);
      if order.tag != "" {
        grouped := grouped[order.tag := At(grouped, order.tag) + [order]];
      }
    }
    assert orders[..|orders|] == orders;
  }

  method ListAll<T>(s: set<T>) returns (ids: seq<T>)
    ensures Distinct(ids) && forall x :: x in ids <==> x in s
  {
    ids := [];
    var left := s;
    while left != {}
      invariant left <= s && Distinct(ids)
      invariant forall x :: x in ids <==> x in s - left
      decreases left
    {
      var x :| x in left;
      assert x !in ids;
      ids, left := ids + [x], left - {x};
    }
  }

  /** The unique index on broker order ids, and rows created for an intent carry its tag. */
  ghost predicate Indexed(c: Core) {
    && (forall k, l, id :: HasBrokerId(c.orders, k, id) && HasBrokerId(c.orders, l, id) ==> k == l)
    && (forall i | Created(i) in c.orders :: i in c.intents && HasTag(c.orders, Created(i), c.intents[i].tag))
  }

  /** The located row may be written: it keeps its id, or takes one no other row has. */
  lemma WriteKeepsIndexed(c: Core, i: Id, b: BrokerOrder, w: Writes)
    requires Indexed(c) && i in c.intents && w.row.Some?
    requires w.key == RowKey(c, i, b) && w.row.value.brokerId == AckedRow(c, i, b).brokerId
    requires w.row.value.tag == AckedRow(c, i, b).tag
    ensures Indexed(Apply(c, i, w))
  {
    var d := Apply(c, i, w);
    forall k, id | HasBrokerId(d.orders, k, id)
      ensures HasBrokerId(c.orders, k, id) || (k == w.key && id == b.id && forall l :: !HasBrokerId(c.orders, l, id)) {}
  }

  lemma {:induction false} OrphanBreaksSnoc(c: Core, orders: seq<BrokerOrder>, tags: seq<string>, tag: string)
    ensures OrphanBreaks(c, orders, tags + [tag]) == OrphanBreaks(c, orders, tags) + OrphanBreak(c, orders, tag)
  {
    if tags == [] {
      assert OrphanBreaks(c, orders, [tag]) == OrphanBreak(c, orders, tag) + OrphanBreaks(c, orders, [tag][1..]);
    } else {
      assert (tags + [tag])[0] == tags[0] && (tags + [tag])[1..] == tags[1..] + [tag];
      OrphanBreaksSnoc(c, orders, tags[1..], tag);
    }
  }

  lemma BreaksAssoc(a: seq<Break>, b: seq<Break>, c: seq<Break>)
    ensures a + b + c == a + (b + c)
  {
  }

  class Engine {
    var intents: map<Id, Intent>
    var orders: map<OrderKey, OrderRow>
    var trades: map<Id, Trade>
    var positions: map<Id, Position>
    var instances: map<Id, InstanceStatus>
    var breaks: seq<Break>

    function Tables(): Core
      reads this
    {
      Core(intents, orders, trades, positions, instances)
    }

    function State(): Db
      reads this
    {
      Db(Tables(), breaks)
    }

    ghost predicate Valid()
      reads this
    {
      Indexed(Tables())
    }

    method GetByBrokerOrderId(id: string) returns (r: Lookup)
      requires Valid()
      ensures match r
        case NoRow => forall k :: !HasBrokerId(orders, k, id)
        case OneRow(k) => HasBrokerId(orders, k, id)
        case ManyRows => false
    {
      r := NoRow;
      var left := orders.Keys;
      while left != {}
        invariant left <= orders.Keys
        invariant forall k :: HasBrokerId(orders, k, id) ==> k in left
      {
        var k :| k in left;
        if orders[k].brokerId == Some(id) {
          assert HasBrokerId(orders, k, id);
          return OneRow(k);
        }
        left := left - {k};
      }
    }

    method GetByBrokerTag(tag: string) returns (r: Lookup)
      ensures match r
        case NoRow => forall k :: !HasTag(orders, k, tag)
        case OneRow(k) => HasTag(orders, k, tag) && !Ambiguous(orders, tag)
        case ManyRows => Ambiguous(orders, tag)
    {
      r := NoRow;
      var left := orders.Keys;
      while left != {}
        invariant left <= orders.Keys && !r.ManyRows?
        invariant forall k :: HasTag(orders, k, tag) ==> k in left || r == OneRow(k)
        invariant r.OneRow? ==> HasTag(orders, r.key, tag) && r.key !in left
      {
        var k :| k in left;
        if orders[k].tag == Some(tag) {
          if r.OneRow? {
            assert HasTag(orders, k, tag) && HasTag(orders, r.key, tag);
            return ManyRows;
          }
          r := OneRow(k);
        }
        left := left - {k};
      }
    }

    /** Freezes the owning instance of a position that needs a human. */
    method MarkErrored(p: Id, reason: Reason)
      requires p in positions
      modifies `positions, `instances
      ensures Tables() == ErrorPosition(old(Tables()), p, reason)
    {
      var position := positions[p];
      positions := positions[p := position.(state := Errored, needsReconciliation := true, message := Some(reason))];
      if position.instanceId in instances && !instances[position.instanceId].Frozen? {
        instances := instances[position.instanceId := Frozen];
      }
      assert position.instanceId in old(instances) ==> instances == old(instances)[position.instanceId := Frozen];
    }

    method ErrorPositionOfIntent(t: Id)
      modifies `positions, `instances
      ensures Tables() == ErrorPositionOfTrade(old(Tables()), t)
    {
      if t in trades {
        var p := trades[t].positionId;
        if p in positions && !positions[p].state.Closed? && !positions[p].state.Errored? {
          MarkErrored(p, DuplicateOrders);
        }
      }
    }

    method ReconcileOneIntent(i: Id, byTag: map<string, seq<BrokerOrder>>, ghost snapshot: seq<BrokerOrder>)
      returns (raised: bool, broke: bool)
      requires Valid() && forall tag :: At(byTag, tag) == Matches(snapshot, tag)
      modifies this
      ensures Valid()
      ensures raised == Raises(old(Tables()), snapshot, i)
      ensures Tables() == ReconcileIntent(old(Tables()), snapshot, i)
      ensures breaks == old(breaks) + IntentBreaks(old(Tables()), snapshot, i)
      ensures broke == (breaks != old(breaks))
    {
      raised, broke := false, false;
      if i !in intents || !InDoubtStatus(intents[i].status) {
        return;
      }
      var intent := intents[i];
      var matches := At(byTag, intent.tag);
      if |matches| == 0 {
        intents := intents[i := intent.(status := Failed)];
      } else if |matches| > 1 {
        breaks := breaks + [Break(QuantityMismatch, OfIntent(i), None, OrderIds(OrderIdsOf(matches)))];
        ErrorPositionOfIntent(intent.tradeId);
        broke := true;
      } else {
        raised, broke := ResolveIntentAgainstOrder(i, matches[0], snapshot);
      }
    }

    /** Finds the order row for an intent, by broker order id and then by tag, or
        drafts the missing one, and acknowledges it. Raises on an ambiguous tag. */
    method LocateRow(i: Id, b: BrokerOrder) returns (raised: bool, key: OrderKey, row: OrderRow)
      requires Valid() && i in intents
      ensures raised == ((forall k :: !HasBrokerId(orders, k, b.id)) && Ambiguous(orders, intents[i].tag))
      ensures !raised ==> key == RowKey(Tables(), i, b) && row == AckedRow(Tables(), i, b)
    {
      raised, key, row := false, Created(i), NewRow(i, intents[i]);
      var found := GetByBrokerOrderId(b.id);
      if found.NoRow? {
        found := GetByBrokerTag(intents[i].tag);
        if found.ManyRows? {
          return true, key, row;
        }
      }
      if found.OneRow? {
        key, row := found.key, orders[found.key];
      }
      if row.brokerId.None? {
        row := row.(brokerId := Some(b.id), status := Open);
      }
      assert key == RowKey(Tables(), i, b);
    }

    /** Rolls back to the state before the unit of work when it raises. */
    method ResolveIntentAgainstOrder(i: Id, b: BrokerOrder, ghost snapshot: seq<BrokerOrder>)
      returns (raised: bool, broke: bool)
      requires Valid() && InDoubt(Tables(), i) && Matches(snapshot, intents[i].tag) == [b]
      modifies this
      ensures Valid() && raised == Raises(old(Tables()), snapshot, i)
      ensures Tables() == ReconcileIntent(old(Tables()), snapshot, i)
      ensures breaks == old(breaks) + IntentBreaks(old(Tables()), snapshot, i)
      ensures broke == (breaks != old(breaks))
    {
      broke := false;
      var intent := intents[i];
      var key, row;
      raised, key, row := LocateRow(i, b);
      if raised {
        return;
      }
      WriteKeepsIndexed(Tables(), i, b, ResolveWrites(Tables(), snapshot, i));
      if b.status.Complete? || (b.status.Terminal() && b.filled > 0) {
        var price := PriceOr(b.price, row.price);
        if b.filled > row.quantity || price < 0.0 {
          return true, false;
        }
        ApplyFill(i, key, row.(status := Complete, filled := b.filled, price := Some(price)), price);
        if !b.status.Complete? {
          breaks := breaks + [Break(QuantityMismatch, OfIntent(i), Some(key), FilledThen(b.filled, b.status))];
          broke := true;
        } else if b.filled != intent.quantity {
          var mismatch := FilledAgainst(b.filled, intent.quantity);
          breaks := breaks + [Break(QuantityMismatch, OfIntent(i), Some(key), mismatch)];
          broke := true;
        }
      } else if b.status.Terminal() {
        orders := orders[key := row.(status := Rejected)];
        intents := intents[i := intent.(status := Failed)];
      } else {
        orders := orders[key := row];
        assert intents == intents[i := intent];
      }
    }

    method ApplyFill(i: Id, key: OrderKey, row: OrderRow, price: real)
      requires i in intents
      modifies `intents, `orders, `trades
      ensures Tables() == Apply(old(Tables()), i, Writes(Confirmed, key, Some(row), Some(price)))
    {
      var intent := intents[i];
      orders := orders[key := row];
      if intent.tradeId in trades {
        var trade := trades[intent.tradeId];
        if intent.purpose.Entry? {
          trade := trade.(entryPrice := Some(price));
          if trade.status.LegPending? {
            trade := trade.(status := LegOpen);
          }
        } else {
          trade := trade.(exitPrice := Some(price));
          if trade.status.LegOpen? {
            trade := trade.(status := LegClosed);
          }
        }
        trades := trades[intent.tradeId := trade];
      }
      intents := intents[i := intent.(status := Placed)];
      intents := intents[i := intents[i].(status := Confirmed)];
    }

    method ReconcileIntents(env: Env, byTag: map<string, seq<BrokerOrder>>)
      returns (raised: bool, recorded: nat, ghost scan: seq<Id>)
      requires Valid() && forall tag :: At(byTag, tag) == Matches(env.orders, tag)
      modifies this
      ensures Valid() && IntentScan(old(Tables()), scan)
      ensures Run(State(), raised) == RunIntents(old(State()), env, scan)
      ensures !raised ==> |breaks| == |old(breaks)| + recorded
    {
      var ids: seq<Id> := ListAll(set i: Id | i in intents && InDoubtStatus(intents[i].status));
      scan := ids;
      raised, recorded := false, 0;
      for n := 0 to |ids|
        invariant Valid() && !raised && |breaks| == |old(breaks)| + recorded
        invariant RunIntents(old(State()), env, scan) == RunIntents(State(), env, scan[n..])
      {
        var broke;
        raised, broke := ReconcileOneIntent(ids[n], byTag, env.orders);
        if raised {
          return;
        }
        recorded := recorded + if broke then 1 else 0;
      }
    }

    method FlagOrphan(tag: string, matches: seq<BrokerOrder>, ghost orders: seq<BrokerOrder>) returns (broke: bool)
      requires matches == Matches(orders, tag)
      modifies `breaks
      ensures broke == !exists i | i in intents :: intents[i].tag == tag
      ensures breaks == old(breaks) + OrphanBreak(Tables(), orders, tag)
      ensures |breaks| == |old(breaks)| + if broke then 1 else 0
    {
      broke := !exists i | i in intents :: intents[i].tag == tag;
      if broke {
        breaks := breaks + [Break(OrphanFill, OfTag(tag), None, OrderIds(OrderIdsOf(matches)))];
      }
    }

    method DetectOrphans(
        env: Env, byTag: map<string, seq<BrokerOrder>>) returns (recorded: nat, ghost tags: seq<string>)
      requires byTag.Keys == TagSet(env.orders) && forall tag :: At(byTag, tag) == Matches(env.orders, tag)
      modifies `breaks
      ensures TagScan(env, tags)
      ensures breaks == old(breaks) + OrphanBreaks(Tables(), env.orders, tags)
      ensures |breaks| == |old(breaks)| + recorded
    {
      var listed := ListAll(byTag.Keys);
      tags := listed;
      recorded := FlagOrphans(byTag, listed, env.orders);
    }

    method FlagOrphans(
        byTag: map<string, seq<BrokerOrder>>, tags: seq<string>, ghost orders: seq<BrokerOrder>) returns (recorded: nat)
      requires forall tag :: tag in tags ==> tag in byTag && byTag[tag] == Matches(orders, tag)
      modifies `breaks
      ensures breaks == old(breaks) + OrphanBreaks(Tables(), orders, tags)
      ensures |breaks| == |old(breaks)| + recorded
    {
      ghost var core, start, found := Tables(), breaks, [];
      recorded := 0;
      for n := 0 to |tags|
        invariant found == OrphanBreaks(core, orders, tags[..n])
        invariant breaks == start + found && |found| == recorded
      {
        assert tags[..n + 1] == tags[..n] + [tags[n]];
        OrphanBreaksSnoc(core, orders, tags[..n], tags[n]);
        var broke := FlagOrphan(tags[n], byTag[tags[n]], orders);
        BreaksAssoc(start, found, OrphanBreak(core, orders, tags[n]));
        found := found + OrphanBreak(core, orders, tags[n]);
        recorded := recorded + if broke then 1 else 0;
      }
      assert tags[..|tags|] == tags;
    }

    method FinalizeOrFlag(p: Id, entry: bool, hook: Option<Hook>) returns (broke: bool)
      requires p in positions
      modifies `positions, `breaks
      ensures positions == old(positions)[p :=
        Moved(old(positions[p]), Legs(trades, p), if entry then FinalizeEntry else FinalizeExit, hook)]
      ensures broke == hook.None?
      ensures breaks == old(breaks) + if hook.None? then [Break(Other, OfPosition(p), None, NoReconciler)] else []
    {
      broke := hook.None?;
      var position := positions[p];
      if hook.None? {
        breaks := breaks + [Break(Other, OfPosition(p), None, NoReconciler)];
        positions := positions[p := position.(needsReconciliation := true)];
      } else if entry {
        positions := positions[p :=
          position.(state := PositionOpen, terms := hook.value.entryTerms(position, Legs(trades, p)))];
      } else {
        positions := positions[p :=
          position.(state := Closed, terms := hook.value.exitTerms(position, Legs(trades, p)))];
      }
    }

    method RecordError(p: Id, kind: BreakKind, reason: Reason) returns (broke: bool)
      requires p in positions
      modifies `positions, `instances, `breaks
      ensures Tables() == ErrorPosition(old(Tables()), p, reason)
      ensures breaks == old(breaks) + [Break(kind, OfPosition(p), None, Because(reason))] && broke
    {
      MarkErrored(p, reason);
      breaks := breaks + [Break(kind, OfPosition(p), None, Because(reason))];
      broke := true;
    }

    method ReconcileOnePosition(p: Id, env: Env) returns (broke: bool)
      modifies `positions, `instances, `breaks
      ensures Tables() == ReconcilePosition(old(Tables()), env, p)
      ensures breaks == old(breaks) + PositionBreaks(old(Tables()), env, p)
      ensures broke == (breaks != old(breaks))
    {
      broke := false;
      if p !in positions || positions[p].state.Closed? || positions[p].state.Errored? {
        return;
      }
      var legs := Legs(trades, p);
      var open, pending, closed := LegsIn(legs, LegOpen), LegsIn(legs, LegPending), LegsIn(legs, LegClosed);
      if positions[p].state.EntryPending? {
        if open != {} && pending == {} && |legs| > 0 {
          broke := FinalizeOrFlag(p, true, env.hook);
        } else if open == {} {
          positions := positions[p := positions[p].(state := Closed)];
        } else {
          broke := RecordError(p, PartialEntryBreak, PartialEntry(|open|, |legs|));
        }
      } else if positions[p].state.ExitPending? {
        if closed != {} && open == {} && |legs| > 0 {
          broke := FinalizeOrFlag(p, false, env.hook);
        } else if closed != {} && open != {} {
          broke := RecordError(p, Other, PartialExit(|open|, |legs|));
        }
      } else if env.held.Some? {
        var missing := MissingSymbols(legs, env.held.value);
        if missing != {} {
          broke := RecordError(p, BrokerFlatDbOpen, BrokerFlat(missing));
        }
      }
    }

    method ReconcilePositions(env: Env) returns (recorded: nat, ghost scan: seq<Id>)
      modifies `positions, `instances, `breaks
      ensures Distinct(scan) && PositionScan(old(Tables()), scan)
      ensures State() == RunPositions(old(State()), env, scan)
      ensures |breaks| == |old(breaks)| + recorded
    {
      var ids: seq<Id> := ListAll(set p: Id | p in positions && Unfinished(Tables(), p));
      scan := ids;
      recorded := 0;
      for n := 0 to |ids|
        invariant |breaks| == |old(breaks)| + recorded
        invariant RunPositions(old(State()), env, scan) == RunPositions(State(), env, scan[n..])
      {
        var broke := ReconcileOnePosition(ids[n], env);
        recorded := recorded + if broke then 1 else 0;
      }
    }

    /** One full pass. `None` orders: the orderbook could not be fetched, so nothing
        is repaired. The report's count of breaks is the number of rows recorded. */
    method Reconcile(fetched: Option<seq<BrokerOrder>>, held: Option<seq<BrokerPosition>>, hook: Option<Hook>)
      returns (raised: bool, recorded: nat, ghost scans: Scans)
      requires Valid()
      modifies this
      ensures fetched.None? ==> State() == old(State()) && !raised && recorded == 0
      ensures fetched.Some? ==> var env := Env(fetched.value, held, hook);
        && (!raised ==> Scanned(old(State()), env, scans))
        && IntentScan(old(Tables()), scans.intents)
        && Run(State(), raised) == Pass(old(State()), env, scans)
        && (!raised ==> |breaks| == |old(breaks)| + recorded)
    {
      raised, recorded, scans := false, 0, Scans([], [], []);
      if fetched.None? {
        return;
      }
      var env := Env(fetched.value, held, hook);
      var byTag := GroupOrdersByTag(env.orders);
      ghost var intentScan, tagScan, positionScan;
      raised, recorded, intentScan := ReconcileIntents(env, byTag);
      scans := Scans(intentScan, [], []);
      if raised {
        return;
      }
      var orphans, repaired;
      orphans, tagScan := DetectOrphans(env, byTag);
      repaired, positionScan := ReconcilePositions(env);
      recorded := recorded + orphans + repaired;
      scans := Scans(intentScan, tagScan, positionScan);
    }
  }
}
