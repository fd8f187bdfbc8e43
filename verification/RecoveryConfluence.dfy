// Units of work of the reconciliation engine are idempotent and commute, on
// databases whose rows can be told apart.

module RecoveryConfluence {
  import opened Broker
  import opened Recovery

  /** What the schema, the placement code and the broker guarantee before a pass:
      intent tags and broker ids identify, and an order row that carries the id of
      a tagged broker order carries its tag too. Any number of order rows may
      carry one tag. */
  ghost predicate Attributable(c: Core, orders: seq<BrokerOrder>) {
    && TagsIdentify(c.intents)
    && (forall a, b | a in orders && b in orders && a.id == b.id :: a == b)
    && RowsSane(c, orders)
  }

  /** In addition, no two in-doubt intents of a leg turn out to be filled in a way in
      which their order counts. */
  ghost predicate Sane(c: Core, orders: seq<BrokerOrder>) {
    Attributable(c, orders) && NoFillsClash(c, orders)
  }

  ghost predicate TagsIdentify(intents: map<Id, Intent>) {
    forall i, j | i in intents && j in intents && i != j :: intents[i].tag != intents[j].tag
  }

  ghost predicate FillInDoubt(c: Core, orders: seq<BrokerOrder>, i: Id) {
    InDoubt(c, i) && Judge(orders, c.intents[i].tag).Fills?
  }

  /** The unit of work for `i` records a fill on its leg. */
  ghost predicate FillsLeg(c: Core, orders: seq<BrokerOrder>, i: Id) {
    FillInDoubt(c, orders, i) && !Raises(c, orders, i) && c.intents[i].tradeId in c.trades
  }

  /** Two fills of one leg whose order counts: an entry and an exit while the leg is
      pending, or two of one purpose at different prices. */
  ghost predicate Clash(c: Core, orders: seq<BrokerOrder>, i: Id, j: Id) {
    && i != j && FillsLeg(c, orders, i) && FillsLeg(c, orders, j) && c.intents[i].tradeId == c.intents[j].tradeId
    && (if c.intents[i].purpose == c.intents[j].purpose
        then ResolveWrites(c, orders, i).fill != ResolveWrites(c, orders, j).fill
        else c.trades[c.intents[i].tradeId].status.LegPending?)
  }

  ghost predicate NoFillsClash(c: Core, orders: seq<BrokerOrder>) {
    forall i, j :: !Clash(c, orders, i, j)
  }

  ghost predicate RowsSane(c: Core, orders: seq<BrokerOrder>) {
    && (forall k, l, id :: HasBrokerId(c.orders, k, id) && HasBrokerId(c.orders, l, id) ==> k == l)
    && (forall k, b | b in orders && b.tag != "" && HasBrokerId(c.orders, k, b.id) :: HasTag(c.orders, k, b.tag))
    && (forall i | Created(i) in c.orders :: i in c.intents && HasTag(c.orders, Created(i), c.intents[i].tag))
  }

  lemma {:induction false} MatchesSound(orders: seq<BrokerOrder>, tag: string)
    ensures forall b :: b in Matches(orders, tag) <==> b in orders && b.tag == tag && tag != ""
  {
    if orders != [] {
      MatchesSound(orders[1..], tag);
      assert orders == [orders[0]] + orders[1..];
    }
  }

  lemma JudgedOrder(orders: seq<BrokerOrder>, tag: string)
    requires Judge(orders, tag).Single()
    ensures var b := Judge(orders, tag).b; b in orders && b.tag == tag && tag != ""
  {
    MatchesSound(orders, tag);
    assert Matches(orders, tag)[0] in Matches(orders, tag);
  }

  /** How an intent whose tag carries the single broker order `b` writes its row. */
  ghost predicate RowWrite(c: Core, i: Id, b: BrokerOrder, w: Writes)
    requires i in c.intents
  {
    && w.row.Some? && w.row.value.tag == Some(b.tag)
    && (forall l :: HasBrokerId(c.orders, l, b.id) ==> l == w.key)
    && ((exists l :: HasBrokerId(c.orders, l, b.id)) || forall l :: HasTag(c.orders, l, b.tag) ==> l == w.key)
    && (if w.key in c.orders
        then w.row.value.brokerId == (if c.orders[w.key].brokerId.None? then Some(b.id) else c.orders[w.key].brokerId)
             && c.orders[w.key].tag == Some(b.tag)
        else w.key == Created(i) && w.row.value.brokerId == Some(b.id))
  }

  /** Looking up the row of `b` does not raise: some row has its id, or at most one its tag. */
  ghost predicate Locatable(c: Core, b: BrokerOrder) {
    (exists k :: HasBrokerId(c.orders, k, b.id)) || !Ambiguous(c.orders, b.tag)
  }

  lemma NotRefusedLocatable(c: Core, orders: seq<BrokerOrder>, i: Id)
    requires InDoubt(c, i) && !Raises(c, orders, i) && Judge(orders, c.intents[i].tag).Single()
    ensures Locatable(c, Judge(orders, c.intents[i].tag).b)
  {
    JudgedOrder(orders, c.intents[i].tag);
  }

  /** The row located is the one with the order's id, else the only one with its tag. */
  lemma ResolvesOwnRow(c: Core, orders: seq<BrokerOrder>, i: Id)
    requires RowsSane(c, orders) && i in c.intents && Judge(orders, c.intents[i].tag).Single()
    requires Locatable(c, Judge(orders, c.intents[i].tag).b)
    ensures var b := Judge(orders, c.intents[i].tag).b;
      b in orders && b.tag == c.intents[i].tag && b.tag != "" && RowWrite(c, i, b, ResolveWrites(c, orders, i))
  {
    JudgedOrder(orders, c.intents[i].tag);
  }

  lemma ApplyKeepsRows(c: Core, orders: seq<BrokerOrder>, i: Id, b: BrokerOrder, w: Writes)
    requires RowsSane(c, orders) && i in c.intents && RowWrite(c, i, b, w)
    requires b in orders && b.tag == c.intents[i].tag && b.tag != ""
    requires forall x, y | x in orders && y in orders && x.id == y.id :: x == y
    ensures RowsSane(Apply(c, i, w), orders)
  {
    var d := Apply(c, i, w);
    forall k, id | HasBrokerId(d.orders, k, id)
      ensures HasBrokerId(c.orders, k, id) || (k == w.key && id == b.id) {}
    forall k, tag | HasTag(d.orders, k, tag)
      ensures HasTag(c.orders, k, tag) || (k == w.key && tag == b.tag) {}
    forall k, x | x in orders && x.tag != "" && HasBrokerId(d.orders, k, x.id) ensures HasTag(d.orders, k, x.tag) {
      if !HasBrokerId(c.orders, k, x.id) { assert x == b; } else { assert HasTag(c.orders, k, x.tag); }
    }
  }

  lemma TagsStay(c: Core, orders: seq<BrokerOrder>, i: Id)
    requires TagsIdentify(c.intents)
    ensures TagsIdentify(ReconcileIntent(c, orders, i).intents)
  {
    var d := ReconcileIntent(c, orders, i);
    forall x ensures x in d.intents <==> x in c.intents {}
    forall x | x in c.intents ensures d.intents[x].tag == c.intents[x].tag {}
  }

  lemma WithoutOrderRowsStay(c: Core, orders: seq<BrokerOrder>, i: Id)
    requires RowsSane(c, orders) && InDoubt(c, i) && !Judge(orders, c.intents[i].tag).Single()
    ensures RowsSane(ReconcileIntent(c, orders, i), orders)
  {
    var d := ReconcileIntent(c, orders, i);
    assert d.orders == c.orders;
    forall x | x in c.intents ensures x in d.intents && d.intents[x].tag == c.intents[x].tag {}
  }

  lemma IntentKeepsAttributable(c: Core, orders: seq<BrokerOrder>, i: Id)
    requires Attributable(c, orders)
    ensures Attributable(ReconcileIntent(c, orders, i), orders)
  {
    TagsStay(c, orders, i);
    if InDoubt(c, i) && !Raises(c, orders, i) {
      if Judge(orders, c.intents[i].tag).Single() {
        NotRefusedLocatable(c, orders, i);
        ResolvesOwnRow(c, orders, i);
        ApplyKeepsRows(c, orders, i, Judge(orders, c.intents[i].tag).b, ResolveWrites(c, orders, i));
      } else {
        WithoutOrderRowsStay(c, orders, i);
      }
    }
  }

  // ------------------------------------------- intents do not disturb each other

  lemma SameRowsSameWrites(c: Core, d: Core, orders: seq<BrokerOrder>, j: Id)
    requires RowsSane(c, orders) && RowsSane(d, orders)
    requires j in c.intents && j in d.intents && c.intents[j] == d.intents[j]
    requires forall k :: HasTag(c.orders, k, c.intents[j].tag) || HasTag(d.orders, k, c.intents[j].tag) ==>
      k in c.orders && k in d.orders && c.orders[k] == d.orders[k]
    ensures Raises(d, orders, j) <==> Raises(c, orders, j)
    ensures InDoubt(c, j) && !Raises(c, orders, j) ==> ResolveWrites(d, orders, j) == ResolveWrites(c, orders, j)
  {
    if InDoubt(c, j) && Judge(orders, c.intents[j].tag).Single() {
      JudgedOrder(orders, c.intents[j].tag);
      var b := Judge(orders, c.intents[j].tag).b;
      forall k ensures HasTag(c.orders, k, b.tag) <==> HasTag(d.orders, k, b.tag) {}
      forall k ensures HasBrokerId(c.orders, k, b.id) <==> HasBrokerId(d.orders, k, b.id) {
        assert HasBrokerId(c.orders, k, b.id) ==> HasTag(c.orders, k, b.tag);
        assert HasBrokerId(d.orders, k, b.id) ==> HasTag(d.orders, k, b.tag);
      }
      if Locatable(c, b) {
        SameKey(c, d, orders, j);
      }
    }
  }

  lemma SameKey(c: Core, d: Core, orders: seq<BrokerOrder>, j: Id)
    requires RowsSane(c, orders) && RowsSane(d, orders)
    requires j in c.intents && j in d.intents && c.intents[j] == d.intents[j]
    requires Judge(orders, c.intents[j].tag).Single() && Locatable(c, Judge(orders, c.intents[j].tag).b)
    requires var b := Judge(orders, c.intents[j].tag).b;
      && (forall k :: HasTag(c.orders, k, b.tag) <==> HasTag(d.orders, k, b.tag))
      && (forall k :: HasTag(c.orders, k, b.tag) ==> c.orders[k] == d.orders[k])
      && (forall k :: HasBrokerId(c.orders, k, b.id) <==> HasBrokerId(d.orders, k, b.id))
    ensures var b := Judge(orders, c.intents[j].tag).b;
      RowKey(c, j, b) == RowKey(d, j, b) && AckedRow(c, j, b) == AckedRow(d, j, b) && Locatable(d, b)
  {
    JudgedOrder(orders, c.intents[j].tag);
    RowKeyIsOwn(c, orders, j);
    RowKeyIsOwn(d, orders, j);
    var b := Judge(orders, c.intents[j].tag).b;
    if k :| HasBrokerId(c.orders, k, b.id) {
      assert HasTag(c.orders, k, b.tag) && HasBrokerId(d.orders, k, b.id);
    } else if k :| HasTag(c.orders, k, b.tag) {
      assert HasTag(d.orders, k, b.tag);
      assert RowKey(c, j, b) == k == RowKey(d, j, b);
    }
  }

  lemma RowKeyIsOwn(c: Core, orders: seq<BrokerOrder>, i: Id)
    requires RowsSane(c, orders) && i in c.intents && Judge(orders, c.intents[i].tag).Single()
    ensures var b := Judge(orders, c.intents[i].tag).b; var k := RowKey(c, i, b);
      && (forall l :: HasBrokerId(c.orders, l, b.id) ==> k == l)
      && (if exists l :: HasTag(c.orders, l, b.tag) then HasTag(c.orders, k, b.tag)
          else k == Created(i) && k !in c.orders)
  {
    JudgedOrder(orders, c.intents[i].tag);
  }

  lemma IntentIgnoresOthers(c: Core, orders: seq<BrokerOrder>, i: Id, j: Id)
    requires Attributable(c, orders) && i != j
    ensures var d := ReconcileIntent(c, orders, i);
      && (j in d.intents <==> j in c.intents)
      && (j in c.intents ==> d.intents[j] == c.intents[j])
      && (InDoubt(c, j) && !Raises(c, orders, j) ==> ResolveWrites(d, orders, j) == ResolveWrites(c, orders, j))
      && (Raises(d, orders, j) <==> Raises(c, orders, j))
  {
    var d := ReconcileIntent(c, orders, i);
    IntentKeepsAttributable(c, orders, i);
    if j in c.intents && InDoubt(c, i) {
      forall k ensures HasTag(c.orders, k, c.intents[j].tag) || HasTag(d.orders, k, c.intents[j].tag) ==>
        k in c.orders && k in d.orders && c.orders[k] == d.orders[k]
      {
        OtherRowsKept(c, orders, i, k);
      }
      SameRowsSameWrites(c, d, orders, j);
    }
  }

  /** A unit of work brings about no clash of fills that was not there before. */
  lemma ClashesOnlyShrink(c: Core, orders: seq<BrokerOrder>, x: Id, i: Id, j: Id)
    requires Attributable(c, orders) && Clash(ReconcileIntent(c, orders, x), orders, i, j)
    ensures Clash(c, orders, i, j)
  {
    var d := ReconcileIntent(c, orders, x);
    if InDoubt(c, x) && !Raises(c, orders, x) {
      assert FillInDoubt(c, orders, x) ==> !InDoubt(d, x);
      assert i != x && j != x;
      IntentIgnoresOthers(c, orders, x, i);
      IntentIgnoresOthers(c, orders, x, j);
      NoLegPendsAgain(c, orders, x, c.intents[i].tradeId);
    }
  }

  lemma NoLegPendsAgain(c: Core, orders: seq<BrokerOrder>, x: Id, t: Id)
    ensures var d := ReconcileIntent(c, orders, x);
      t in d.trades ==> t in c.trades && (d.trades[t].status.LegPending? ==> c.trades[t].status.LegPending?)
  {
  }

  lemma IntentKeepsSane(c: Core, orders: seq<BrokerOrder>, i: Id)
    requires Sane(c, orders)
    ensures Sane(ReconcileIntent(c, orders, i), orders)
  {
    IntentKeepsAttributable(c, orders, i);
    forall x, y ensures !Clash(ReconcileIntent(c, orders, i), orders, x, y) {
      if Clash(ReconcileIntent(c, orders, i), orders, x, y) { ClashesOnlyShrink(c, orders, i, x, y); }
    }
  }

  /** Only rows carrying the intent's own tag are written. */
  lemma OtherRowsKept(c: Core, orders: seq<BrokerOrder>, i: Id, k: OrderKey)
    requires Attributable(c, orders) && InDoubt(c, i)
    ensures var d := ReconcileIntent(c, orders, i); var tag := c.intents[i].tag;
      && (k in c.orders && !HasTag(c.orders, k, tag) ==> k in d.orders && d.orders[k] == c.orders[k])
      && (k in d.orders && !HasTag(d.orders, k, tag) ==> k in c.orders && d.orders[k] == c.orders[k])
  {
    if !Raises(c, orders, i) && Judge(orders, c.intents[i].tag).Single() {
      NotRefusedLocatable(c, orders, i);
      ResolvesOwnRow(c, orders, i);
    }
  }

  lemma UpdatesCommute<K, V>(m: map<K, V>, k: K, v: V, l: K, w: V)
    requires k != l || v == w
    ensures m[k := v][l := w] == m[l := w][k := v]
  {
  }

  lemma FillLegsCommuteIff(t: Trade, p: Purpose, x: real, q: Purpose, y: real)
    ensures FillLeg(FillLeg(t, p, x), q, y) == FillLeg(FillLeg(t, q, y), p, x) <==>
      if p == q then x == y else !t.status.LegPending?
  {
  }

  /** Two units that write different rows commute exactly when their fills do. */
  lemma AppliesCommuteIff(c: Core, i: Id, wi: Writes, j: Id, wj: Writes)
    requires i != j && i in c.intents && j in c.intents
    requires wi.row.Some? && wj.row.Some? ==> wi.key != wj.key
    ensures var (a, b, t) := (c.intents[i], c.intents[j], c.intents[i].tradeId);
      Apply(Apply(c, i, wi), j, wj) == Apply(Apply(c, j, wj), i, wi) <==>
        (wi.fill.Some? && wj.fill.Some? && b.tradeId == t && t in c.trades ==>
          if a.purpose == b.purpose then wi.fill == wj.fill else !c.trades[t].status.LegPending?)
  {
    var d, e := Apply(Apply(c, i, wi), j, wj), Apply(Apply(c, j, wj), i, wi);
    UpdatesCommute(c.intents, i, c.intents[i].(status := wi.status), j, c.intents[j].(status := wj.status));
    if wi.row.Some? && wj.row.Some? {
      UpdatesCommute(c.orders, wi.key, wi.row.value, wj.key, wj.row.value);
    }
    assert d.intents == e.intents && d.orders == e.orders && d.positions == e.positions && d.instances == e.instances;
    LegsCommuteIff(c, i, wi, j, wj);
  }

  lemma LegsCommuteIff(c: Core, i: Id, wi: Writes, j: Id, wj: Writes)
    requires i != j && i in c.intents && j in c.intents
    ensures var (a, b, t) := (c.intents[i], c.intents[j], c.intents[i].tradeId);
      Apply(Apply(c, i, wi), j, wj).trades == Apply(Apply(c, j, wj), i, wi).trades <==>
        (wi.fill.Some? && wj.fill.Some? && b.tradeId == t && t in c.trades ==>
          if a.purpose == b.purpose then wi.fill == wj.fill else !c.trades[t].status.LegPending?)
  {
    var (a, b) := (c.intents[i], c.intents[j]);
    if wi.fill.Some? && wj.fill.Some? && a.tradeId in c.trades && b.tradeId in c.trades {
      var (l, m, x, y) := (c.trades[a.tradeId], c.trades[b.tradeId], wi.fill.value, wj.fill.value);
      if a.tradeId == b.tradeId {
        FillLegsCommuteIff(l, a.purpose, x, b.purpose, y);
        UpdatedTwice(c.trades, a.tradeId, FillLeg(l, a.purpose, x), FillLeg(FillLeg(l, a.purpose, x), b.purpose, y),
          FillLeg(l, b.purpose, y), FillLeg(FillLeg(l, b.purpose, y), a.purpose, x));
      } else {
        UpdatesCommute(c.trades, a.tradeId, FillLeg(l, a.purpose, x), b.tradeId, FillLeg(m, b.purpose, y));
      }
    }
  }

  lemma UpdatedTwice<K, V>(m: map<K, V>, k: K, a: V, b: V, v: V, w: V)
    ensures m[k := a][k := b] == m[k := v][k := w] <==> b == w
  {
    assert m[k := a][k := b][k] == b && m[k := v][k := w][k] == w;
  }

  lemma ErrorsCommute(c: Core, p: Id, r: Reason, q: Id, s: Reason)
    requires p in c.positions && q in c.positions && p != q
    ensures ErrorPosition(ErrorPosition(c, p, r), q, s) == ErrorPosition(ErrorPosition(c, q, s), p, r)
  {
    var P, Q := c.positions[p], c.positions[q];
    UpdatesCommute(c.positions, p, P.(state := Errored, needsReconciliation := true, message := Some(r)),
      q, Q.(state := Errored, needsReconciliation := true, message := Some(s)));
    UpdatesCommute(c.instances, P.instanceId, Frozen, Q.instanceId, Frozen);
  }

  lemma ErrorAndApplyCommute(c: Core, t: Id, j: Id, w: Writes)
    requires j in c.intents
    ensures j in ErrorPositionOfTrade(c, t).intents
    ensures Apply(ErrorPositionOfTrade(c, t), j, w) == ErrorPositionOfTrade(Apply(c, j, w), t)
  {
  }

  /** Two intents' units of work commute exactly when their fills do not clash. */
  lemma IntentsCommuteIff(c: Core, orders: seq<BrokerOrder>, i: Id, j: Id)
    requires Attributable(c, orders)
    ensures ReconcileIntent(ReconcileIntent(c, orders, i), orders, j) ==
      ReconcileIntent(ReconcileIntent(c, orders, j), orders, i)
      <==> !Clash(c, orders, i, j)
  {
    if i != j {
      IntentIgnoresOthers(c, orders, i, j);
      IntentIgnoresOthers(c, orders, j, i);
      if InDoubt(c, i) && InDoubt(c, j) && !Raises(c, orders, i) && !Raises(c, orders, j) {
        TwoUnitsCommuteIff(c, orders, i, j);
      }
    }
  }

  lemma TwoUnitsCommuteIff(c: Core, orders: seq<BrokerOrder>, i: Id, j: Id)
    requires Attributable(c, orders) && i != j
    requires InDoubt(c, i) && InDoubt(c, j) && !Raises(c, orders, i) && !Raises(c, orders, j)
    ensures ReconcileIntent(ReconcileIntent(c, orders, i), orders, j) ==
      ReconcileIntent(ReconcileIntent(c, orders, j), orders, i)
      <==> !Clash(c, orders, i, j)
  {
    IntentIgnoresOthers(c, orders, i, j);
    IntentIgnoresOthers(c, orders, j, i);
    var ti, tj := c.intents[i].tradeId, c.intents[j].tradeId;
    var wi, wj := ResolveWrites(c, orders, i), ResolveWrites(c, orders, j);
    match (Judge(orders, c.intents[i].tag).Duplicated?, Judge(orders, c.intents[j].tag).Duplicated?)
    case (true, true) =>
      if ti in c.trades && tj in c.trades {
        var p, q := c.trades[ti].positionId, c.trades[tj].positionId;
        if p != q && p in c.positions && q in c.positions {
          ErrorsCommute(c, p, DuplicateOrders, q, DuplicateOrders);
        }
      }
    case (true, false) => ErrorAndApplyCommute(c, ti, j, wj);
    case (false, true) => ErrorAndApplyCommute(c, tj, i, wi);
    case (false, false) =>
      WritesApart(c, orders, i, j);
      AppliesCommuteIff(c, i, wi, j, wj);
  }

  lemma WritesApart(c: Core, orders: seq<BrokerOrder>, i: Id, j: Id)
    requires Attributable(c, orders) && i != j
    requires InDoubt(c, i) && InDoubt(c, j) && !Raises(c, orders, i) && !Raises(c, orders, j)
    ensures var (wi, wj) := (ResolveWrites(c, orders, i), ResolveWrites(c, orders, j));
      && (wi.row.Some? && wj.row.Some? ==> wi.key != wj.key)
      && (wi.fill.Some? <==> FillInDoubt(c, orders, i)) && (wj.fill.Some? <==> FillInDoubt(c, orders, j))
  {
    if Judge(orders, c.intents[i].tag).Single() && Judge(orders, c.intents[j].tag).Single() {
      NotRefusedLocatable(c, orders, i);
      NotRefusedLocatable(c, orders, j);
      ResolvesOwnRow(c, orders, i);
      ResolvesOwnRow(c, orders, j);
    }
  }

  lemma IntentsCommute(c: Core, orders: seq<BrokerOrder>, i: Id, j: Id)
    requires Sane(c, orders)
    ensures ReconcileIntent(ReconcileIntent(c, orders, i), orders, j) ==
      ReconcileIntent(ReconcileIntent(c, orders, j), orders, i)
  {
    IntentsCommuteIff(c, orders, i, j);
  }

  /** Why clashing fills are excluded: an entry and the order that bought it back,
      both filled and both still in doubt, leave the leg closed or open by the order
      in which the unordered query happens to return them. */
  lemma TwoFillsDisagree(c: Core, orders: seq<BrokerOrder>, i: Id, j: Id)
    requires Attributable(c, orders) && FillInDoubt(c, orders, i) && FillInDoubt(c, orders, j)
    requires !Raises(c, orders, i) && !Raises(c, orders, j)
    requires c.intents[i].purpose.Entry? && c.intents[j].purpose.Exit? && c.intents[i].tradeId == c.intents[j].tradeId
    requires c.intents[i].tradeId in c.trades && c.trades[c.intents[i].tradeId].status.LegPending?
    ensures var t := c.intents[i].tradeId;
      var d := ReconcileIntent(ReconcileIntent(c, orders, i), orders, j);
      var e := ReconcileIntent(ReconcileIntent(c, orders, j), orders, i);
      t in d.trades && t in e.trades && d.trades[t].status.LegClosed? && e.trades[t].status.LegOpen?
  {
    IntentIgnoresOthers(c, orders, i, j);
    IntentIgnoresOthers(c, orders, j, i);
  }

  lemma LiveOrderSettled(c: Core, orders: seq<BrokerOrder>, i: Id, w: Writes)
    requires Attributable(c, orders) && InDoubt(c, i) && Judge(orders, c.intents[i].tag).Live? && !Raises(c, orders, i)
    requires w == ResolveWrites(c, orders, i)
    ensures Apply(c, i, w).intents == c.intents && !Raises(Apply(c, i, w), orders, i)
    ensures ResolveWrites(Apply(c, i, w), orders, i) == w
  {
    NotRefusedLocatable(c, orders, i);
    ResolvesOwnRow(c, orders, i);
    var b, d := Judge(orders, c.intents[i].tag).b, Apply(c, i, w);
    ApplyKeepsRows(c, orders, i, b, w);
    assert d.intents == c.intents && HasTag(d.orders, w.key, b.tag);
    if l :| HasBrokerId(c.orders, l, b.id) {
      assert HasBrokerId(d.orders, w.key, b.id);
    } else if w.row.value.brokerId == Some(b.id) {
      assert HasBrokerId(d.orders, w.key, b.id);
    } else {
      forall k ensures !HasBrokerId(d.orders, k, b.id) { assert !HasBrokerId(c.orders, k, b.id); }
      forall k | HasTag(d.orders, k, b.tag) ensures k == w.key { assert k == w.key || HasTag(c.orders, k, b.tag); }
    }
    RowKeyIsOwn(d, orders, i);
    assert RowKey(d, i, b) == w.key;
  }

  lemma IntentIdempotent(c: Core, orders: seq<BrokerOrder>, i: Id)
    requires Attributable(c, orders)
    ensures ReconcileIntent(ReconcileIntent(c, orders, i), orders, i) == ReconcileIntent(c, orders, i)
  {
    if InDoubt(c, i) && !Raises(c, orders, i) && Judge(orders, c.intents[i].tag).Live? {
      var w := ResolveWrites(c, orders, i);
      LiveOrderSettled(c, orders, i, w);
      assert Apply(Apply(c, i, w), i, w) == Apply(c, i, w);
    }
  }
}
