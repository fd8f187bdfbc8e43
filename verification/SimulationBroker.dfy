// The simulated broker itself: it changes its order and position tables in place,
// one lock-protected section at a time. Each method is proved against `Exchange`.

module SimulationBroker {
  import opened Broker
  import opened Ledger
  import opened Exchange

  datatype BrokerError =
    | NotAuthenticated | ConnectionFailed | TimedOut | UnknownInstrument
    | NotFound | NotModifiable | NotCancellable | InvalidRequest

  datatype Reply<T> = Ack(value: T) | Refused(error: BrokerError)

  /** What chance decides about one call. */
  datatype Link = Link(fails: bool, slow: bool)

  datatype Request = Request(tag: string, key: Key, side: Side, quantity: nat)

  datatype Report = Report(key: Key, quantity: int, average: real, pnl: real)

  class SimBroker {
    const synchronous: bool
    var authenticated: bool
    var ids: seq<string>
    var orders: map<string, SimOrder>
    var byTag: map<string, string>
    var positions: map<Key, Holding>
    ghost var sent: seq<BrokerOrder>

    ghost function State(): Book
      reads this
    {
      Book(ids, orders, byTag, positions, sent)
    }

    ghost predicate Valid()
      reads this
    {
      Sound(State())
    }

    constructor (synchronous: bool)
      ensures Valid() && State() == Empty && !authenticated && this.synchronous == synchronous
    {
      this.synchronous := synchronous;
      authenticated, ids, orders, byTag, positions, sent := false, [], map[], map[], map[], [];
    }

    method Authenticate(fails: bool) returns (refused: Option<BrokerError>)
      modifies this`authenticated
      ensures authenticated == (old(authenticated) || !fails)
      ensures refused == if fails then Some(NotAuthenticated) else None
    {
      if fails {
        return Some(NotAuthenticated);
      }
      authenticated := true;
      return None;
    }

    /** The refusals every call can meet before it reaches the exchange. */
    method Reach(link: Link) returns (refused: Option<BrokerError>)
      ensures refused == if !authenticated then Some(NotAuthenticated)
        else if link.fails then Some(ConnectionFailed) else if link.slow then Some(TimedOut) else None
    {
      if !authenticated {
        return Some(NotAuthenticated);
      }
      if link.fails {
        return Some(ConnectionFailed);
      }
      if link.slow {
        return Some(TimedOut);
      }
      return None;
    }

    /** Fold one fill into the order's own average and into the ledger. */
    method ApplyFill(id: string, delta: nat, price: real)
      requires id in orders && delta > 0
      modifies this`orders, this`positions
      ensures orders == old(orders)[id := FillBy(old(orders)[id], delta, price)]
      ensures positions == Post(old(positions), old(orders)[id].key, old(orders)[id].side, delta, price)
    {
      var order := orders[id];
      var filled := order.filled + delta;
      var paid := PriceOr(order.average, None) * order.filled as real + price * delta as real;
      assert paid / filled as real == FillBy(order, delta, price).average.value;
      orders := orders[id := order.(filled := filled, average := Some(paid / filled as real))];
      var current := HoldingAt(positions, order.key);
      positions := positions[order.key := Update(current, order.side, delta, price)];
    }

    method ProcessDueOrder(id: string, t: Tick, force: bool) returns (updated: Option<BrokerOrder>)
      requires id in orders
      modifies this`orders, this`positions, this`sent
      ensures State() == Process(old(State()), id, t, force)
      ensures updated == if Due(old(orders)[id], t, force) then Some(Snapshot(id, orders[id])) else None
    {
      var order := orders[id];
      if order.status.Terminal() || (!force && t.now < order.resolveAt) {
        return None;
      }
      if order.outcome.Rejection? {
        orders := orders[id := order.(status := Rejected, remaining := 0)];
      } else {
        var left := order.quantity - order.filled;
        var step := if order.remaining <= 1 then left else Min(order.stepQuantity, left);
        if step > 0 {
          ApplyFill(id, step, t.price);
        }
        ghost var before := order;
        order := orders[id];
        StepIs(before, t, step, order);
        var after := if order.remaining >= 1 then order.remaining - 1 else 0;
        if order.filled >= order.quantity {
          order := order.(status := Complete, remaining := 0);
        } else {
          order := order.(status := Open, remaining := after, resolveAt := t.next);
        }
        orders := orders[id := order];
      }
      updated := Some(Snapshot(id, orders[id]));
      sent := sent + [Snapshot(id, orders[id])];
    }

    /** One pass over every order. It reports an update exactly for the orders it advanced. */
    method ResolveDueOrders(round: nat, market: Market, force: bool) returns (updates: seq<BrokerOrder>)
      requires Valid()
      modifies this`orders, this`positions, this`sent
      ensures Valid() && State() == Sweep(old(State()), ids, round, market, force)
      ensures sent == old(sent) + updates
      ensures force && updates == [] ==> !AnyLive(old(State()))
      ensures force && updates != [] ==> AnyLive(old(State()))
    {
      ghost var start := State();
      updates := [];
      for n := 0 to |ids|
        invariant ids == start.ids && Partway(start, State(), n, updates, round, market, force)
      {
        ghost var before := State();
        assert ids[n] in ids;
        var updated := ProcessDueOrder(ids[n], market(round, ids[n]), force);
        PartwayNext(start, before, n, updates, round, market, force);
        if updated.Some? {
          updates := updates + [updated.value];
        }
      }
      SweepKeepsDestiny(start, ids, round, market, force);
      PartwayDone(start, State(), updates, round, market, force);
    }

    /** Advance as far as the mode allows: everything there is to do when synchronous,
        otherwise one pass over what is due. */
    method Pump(market: Market)
      requires Valid()
      modifies this`orders, this`positions, this`sent
      ensures Valid() && State() == Pumped(old(State()), synchronous, market)
      ensures SameDestinies(old(State()), State())
      ensures synchronous ==> forall id :: id in orders ==>
        !orders[id].Live() && (orders[id].status, orders[id].filled) == Destiny(old(orders)[id])
    {
      ghost var start := State();
      if synchronous {
        DrainAll(market);
        DrainCompletes(start, 0, market);
      } else {
        SweepKeepsDestiny(start, ids, 0, market, false);
        var updates := ResolveDueOrders(0, market, false);
      }
    }

    method DrainAll(market: Market)
      requires Valid()
      modifies this`orders, this`positions, this`sent
      ensures Valid() && State() == Drain(old(State()), 0, market)
    {
      var round := 0;
      ghost var before := State();
      var updates := ResolveDueOrders(round, market, true);
      if updates == [] {
        SweepIdle(before, ids, round, market);
      }
      while updates != []
        invariant Valid()
        invariant updates == [] ==> Drain(old(State()), 0, market) == State()
        invariant updates != [] ==> Drain(old(State()), 0, market) == Drain(State(), round + 1, market)
        decreases Work(ids, orders), |updates|
      {
        round := round + 1;
        before := State();
        updates := ResolveDueOrders(round, market, true);
        SweepWorks(before, ids, round, market);
        if updates == [] {
          SweepIdle(before, ids, round, market);
        }
      }
    }

    method BuildSimOrder(request: Request, outcome: Outcome, steps: nat, due: int) returns (order: SimOrder)
      requires steps >= 1 && request.quantity > 0
      ensures order == NewOrder(request.tag, request.key, request.side, request.quantity, outcome, steps, due)
      ensures OrderOk(order) && order.Live() && order.stepQuantity >= 1
      ensures Destiny(order) == if outcome.Rejection? then (Rejected, 0) else (Complete, request.quantity)
    {
      var n, step := 1, request.quantity;
      if outcome.PartialThenFill? {
        n, step := steps, request.quantity / steps;
        if step < 1 {
          step := 1;
        }
      }
      order := SimOrder(request.tag, request.key, request.side, request.quantity, Open, 0, None, outcome, due, n, step);
    }

    /** Accept an order. An acknowledgement lost on the way back leaves the order in
        the book although the caller sees a timeout; any other refusal leaves no trace. */
    method PlaceOrder(
        request: Request, link: Link, listed: bool, id: string, outcome: Outcome, steps: nat, due: int, ackLost: bool,
        market: Market)
      returns (reply: Reply<string>)
      requires Valid() && steps >= 1 && request.quantity > 0 && id !in orders
      modifies this`ids, this`orders, this`byTag, this`positions, this`sent
      ensures Valid()
      ensures var entered := Placed(old(State()), id,
          NewOrder(request.tag, request.key, request.side, request.quantity, outcome, steps, due));
        if !authenticated then reply == Refused(NotAuthenticated) && State() == old(State())
        else if link.fails then reply == Refused(ConnectionFailed) && State() == old(State())
        else if link.slow then reply == Refused(TimedOut) && State() == old(State())
        else
          if !listed then reply == Refused(UnknownInstrument) && State() == old(State())
          else if ackLost then reply == Refused(TimedOut) && State() == entered
          else reply == Ack(id) && State() == Pumped(entered, synchronous, market)
    {
      var refused := Reach(link);
      if refused.Some? {
        return Refused(refused.value);
      }
      if !listed {
        return Refused(UnknownInstrument);
      }
      var order := BuildSimOrder(request, outcome, steps, due);
      PlacedIsSound(State(), id, order);
      ids, orders, byTag := ids + [id], orders[id := order], byTag[request.tag := id];
      if ackLost {
        return Refused(TimedOut);
      }
      Pump(market);
      return Ack(id);
    }

    method ModifyOrder(id: string, quantity: Option<nat>, link: Link) returns (reply: Reply<()>)
      requires Valid()
      modifies this`orders, this`sent
      ensures Valid()
      ensures reply.Refused? ==> State() == old(State())
      ensures if !authenticated then reply == Refused(NotAuthenticated)
        else if link.fails then reply == Refused(ConnectionFailed)
        else if link.slow then reply == Refused(TimedOut)
        else if id !in old(orders) then reply == Refused(NotFound)
        else if !old(orders)[id].status.Pending? && !old(orders)[id].status.Open? then reply == Refused(NotModifiable)
        else if quantity.Some? && quantity.value < old(orders)[id].filled then reply == Refused(InvalidRequest)
        else
          && reply == Ack(()) && State() == Next(old(State()), Modify(id, quantity))
          && orders[id].quantity == if quantity.Some? then quantity.value else old(orders)[id].quantity
    {
      var refused := Reach(link);
      if refused.Some? {
        return Refused(refused.value);
      }
      if id !in orders {
        return Refused(NotFound);
      }
      var order := orders[id];
      if order.status.Terminal() {
        return Refused(NotModifiable);
      }
      if quantity.Some? {
        if quantity.value < order.filled {
          return Refused(InvalidRequest);
        }
        order := order.(quantity := quantity.value);
      }
      ChangedIsSound(State(), id, order);
      orders, sent := orders[id := order], sent + [Snapshot(id, order)];
      return Ack(());
    }

    /** Cancelling keeps what has filled, in the order and in the ledger. */
    method CancelOrder(id: string, link: Link) returns (reply: Reply<()>)
      requires Valid()
      modifies this`orders, this`sent
      ensures Valid()
      ensures reply.Refused? ==> State() == old(State())
      ensures if !authenticated then reply == Refused(NotAuthenticated)
        else if link.fails then reply == Refused(ConnectionFailed)
        else if link.slow then reply == Refused(TimedOut)
        else if id !in old(orders) then reply == Refused(NotFound)
        else if !old(orders)[id].status.Pending? && !old(orders)[id].status.Open? then reply == Refused(NotCancellable)
        else
          && reply == Ack(()) && State() == Next(old(State()), Cancel(id))
          && orders[id].status.Cancelled? && orders[id].filled == old(orders)[id].filled
    {
      var refused := Reach(link);
      if refused.Some? {
        return Refused(refused.value);
      }
      if id !in orders {
        return Refused(NotFound);
      }
      var order := orders[id];
      if order.status.Terminal() {
        return Refused(NotCancellable);
      }
      order := order.(status := Cancelled, remaining := 0);
      ChangedIsSound(State(), id, order);
      orders, sent := orders[id := order], sent + [Snapshot(id, order)];
      return Ack(());
    }

    /** The most recently placed order with this tag, as it stands after a pump. */
    method FindOrderByTag(tag: string, link: Link, market: Market) returns (reply: Reply<Option<BrokerOrder>>)
      requires Valid()
      modifies this`orders, this`positions, this`sent
      ensures Valid()
      ensures if link.fails then reply == Refused(ConnectionFailed) && State() == old(State())
        else if link.slow then reply == Refused(TimedOut) && State() == old(State())
        else
          && State() == Pumped(old(State()), synchronous, market)
          && reply == Ack(match Latest(ids, orders, tag)
                          case None => None
                          case Some(id) => if id in orders then Some(Snapshot(id, orders[id])) else None)
          && (match Latest(ids, orders, tag) case None => true case Some(id) => id in orders && orders[id].tag == tag)
    {
      if link.fails {
        return Refused(ConnectionFailed);
      }
      if link.slow {
        return Refused(TimedOut);
      }
      Pump(market);
      LatestFound(ids, orders, tag);
      assert (if tag in byTag then Some(byTag[tag]) else None) == Latest(ids, orders, tag) by {
        assert TagsRight(State());
      }
      if tag !in byTag {
        return Ack(None);
      }
      return Ack(Some(Snapshot(byTag[tag], orders[byTag[tag]])));
    }

    /** One report for each position that is not flat. Quantity and profit are those
        of the key's own orders. */
    method GetPositions(link: Link, market: Market, last: Key -> real) returns (reply: Reply<seq<Report>>)
      requires Valid()
      modifies this`orders, this`positions, this`sent
      ensures Valid()
      ensures if link.fails then reply == Refused(ConnectionFailed) && State() == old(State())
        else if link.slow then reply == Refused(TimedOut) && State() == old(State())
        else
          reply.Ack? && State() == Pumped(old(State()), synchronous, market) && Covers(State(), reply.value, last)
    {
      if link.fails {
        return Refused(ConnectionFailed);
      }
      if link.slow {
        return Refused(TimedOut);
      }
      Pump(market);
      var result := ListPositions(last);
      return Ack(result);
    }

    method ListPositions(last: Key -> real) returns (result: seq<Report>)
      requires Valid()
      ensures Covers(State(), result, last)
    {
      result := [];
      var left := positions.Keys;
      while left != {}
        invariant left <= positions.Keys
        invariant forall m :: 0 <= m < |result| ==> Faithful(State(), result[m], last) && result[m].key !in left
        invariant forall m, n :: 0 <= m < n < |result| ==> result[m].key != result[n].key
        invariant forall k :: k in positions && k !in left && positions[k].quantity != 0 ==> Mentions(result, k)
        decreases left
      {
        var k :| k in left;
        left := left - {k};
        var p := positions[k];
        if p.quantity != 0 {
          ReportIsFaithful(State(), k, last);
          var r := Report(k, p.quantity, p.average, Marked(p, last(k)));
          MentionsNext(result, r);
          result := result + [r];
        }
      }
      forall k | Units(ids, orders, k) != 0 ensures Mentions(result, k) { OwedIsHeld(State(), k); }
    }
  }

  ghost predicate Faithful(b: Book, r: Report, last: Key -> real) {
    && r.quantity == Units(b.ids, b.orders, r.key) != 0 && r.pnl == Worth(b, r.key, last(r.key))
    && r.average == HoldingAt(b.positions, r.key).average
  }

  /** Faithful reports, one for every key whose orders leave a net quantity. */
  ghost predicate Covers(b: Book, reports: seq<Report>, last: Key -> real) {
    && (forall m :: 0 <= m < |reports| ==> Faithful(b, reports[m], last))
    && (forall m, n :: 0 <= m < n < |reports| ==> reports[m].key != reports[n].key)
    && (forall k :: Units(b.ids, b.orders, k) != 0 ==> Mentions(reports, k))
  }

  ghost predicate Mentions(reports: seq<Report>, k: Key) {
    exists m :: 0 <= m < |reports| && reports[m].key == k
  }

  lemma MentionsNext(reports: seq<Report>, r: Report)
    ensures forall k :: Mentions(reports + [r], k) <==> Mentions(reports, k) || k == r.key
  {
    assert (reports + [r])[|reports|] == r;
    forall k | Mentions(reports, k) ensures Mentions(reports + [r], k) {
      var m :| 0 <= m < |reports| && reports[m].key == k;
      assert (reports + [r])[m] == reports[m];
    }
  }

  /** A step on the order as it is after its fill. */
  lemma StepIs(o: SimOrder, t: Tick, step: int, worked: SimOrder)
    requires !o.outcome.Rejection?
    requires step == if o.remaining <= 1 then o.quantity - o.filled else Min(o.stepQuantity, o.quantity - o.filled)
    requires worked == if step > 0 then FillBy(o, step, t.price) else o
    ensures NextFill(o) == if step > 0 then step else 0
    ensures worked.remaining == o.remaining
    ensures Stepped(o, t) ==
      if worked.filled >= worked.quantity then worked.(status := Complete, remaining := 0)
      else worked.(
        status := Open, remaining := if o.remaining >= 1 then o.remaining - 1 else 0, resolveAt := t.next)
  {
  }

  lemma OwedIsHeld(b: Book, k: Key)
    requires Sound(b) && Units(b.ids, b.orders, k) != 0
    ensures k in b.positions && b.positions[k].quantity != 0
  {
    assert AgreesAt(b, k);
  }

  lemma ReportIsFaithful(b: Book, k: Key, last: Key -> real)
    requires Sound(b) && k in b.positions && b.positions[k].quantity != 0
    ensures var p := b.positions[k];
      Faithful(b, Report(k, p.quantity, p.average, Marked(p, last(k))), last)
  {
    BookFixesProfit(b, k, last(k));
  }

  lemma {:induction false} LatestFound(ids: seq<string>, orders: map<string, SimOrder>, tag: string)
    ensures match Latest(ids, orders, tag) case None => true case Some(id) => id in orders && orders[id].tag == tag
  {
    if ids != [] {
      LatestFound(ids[..|ids| - 1], orders, tag);
    }
  }

  ghost function Pumped(b: Book, synchronous: bool, market: Market): Book {
    if synchronous then Drain(b, 0, market) else Sweep(b, b.ids, 0, market, false)
  }

  /** A pass over `start` that has handled its first `n` orders. */
  ghost predicate Partway(
      start: Book, now: Book, n: nat, updates: seq<BrokerOrder>, round: nat, market: Market, force: bool) {
    && n <= |start.ids| && now.ids == start.ids && now.orders.Keys == start.orders.Keys
    && (forall id :: id in start.ids ==> id in now.orders)
    && now.sent == start.sent + updates
    && Sweep(start, start.ids, round, market, force) == Sweep(now, start.ids[n..], round, market, force)
    && (if updates == [] then now == start && (force ==> forall m :: 0 <= m < n ==> !start.orders[start.ids[m]].Live())
        else AnyLive(start))
  }

  lemma PartwayDone(start: Book, now: Book, updates: seq<BrokerOrder>, round: nat, market: Market, force: bool)
    requires Partway(start, now, |start.ids|, updates, round, market, force) && Listed(start)
    ensures now == Sweep(start, start.ids, round, market, force) && now.sent == start.sent + updates
    ensures force && updates == [] ==> !AnyLive(start)
    ensures force && updates != [] ==> AnyLive(start)
  {
    assert start.ids[|start.ids|..] == [];
  }

  lemma PartwayNext(start: Book, now: Book, n: nat, updates: seq<BrokerOrder>, round: nat, market: Market, force: bool)
    requires n < |start.ids| && Partway(start, now, n, updates, round, market, force)
    ensures var (id, t) := (start.ids[n], market(round, start.ids[n])); var next := Process(now, id, t, force);
      Partway(
        start, next, n + 1,
        if Due(now.orders[id], t, force) then updates + [Snapshot(id, next.orders[id])] else updates,
        round, market, force)
  {
    assert start.ids[n..][0] == start.ids[n] && start.ids[n..][1..] == start.ids[n + 1..];
    assert start.ids[n] in start.ids;
  }

  lemma {:induction false} SweepIdle(b: Book, ids: seq<string>, round: nat, market: Market)
    requires forall id :: id in ids && id in b.orders ==> !b.orders[id].Live()
    ensures Sweep(b, ids, round, market, true) == b
    decreases |ids|
  {
    if ids != [] {
      SweepIdle(b, ids[1..], round, market);
    }
  }
}
