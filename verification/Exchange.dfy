// The simulated exchange on values: an order executes a plan fixed when it is
// placed, in steps, and every fill is also folded into a position ledger. What
// each operation keeps, where a drain ends, and why the two views agree.

module Exchange {
  import opened Broker
  import opened Ledger
  import OrderUpdates

  datatype Outcome = FullFill | PartialThenFill | Rejection

  datatype Key = Key(exchange: string, symbol: string, product: string)

  datatype SimOrder = SimOrder(
    tag: string, key: Key, side: Side, quantity: nat, status: OrderStatus, filled: nat, average: Option<real>,
    outcome: Outcome, resolveAt: int, remaining: nat, stepQuantity: nat)
  {
    predicate Live() {
      !status.Terminal()
    }
  }

  /** `ids` is the dictionary order of `orders`; `sent` every snapshot announced so far. */
  datatype Book = Book(
    ids: seq<string>, orders: map<string, SimOrder>, byTag: map<string, string>,
    positions: map<Key, Holding>, sent: seq<BrokerOrder>)

  /** What the clock and the price source say while one order is processed, and
      when an order still working then is due again. */
  datatype Tick = Tick(now: int, next: int, price: real)

  type Market = (nat, string) -> Tick

  const Empty := Book([], map[], map[], map[], [])

  function HoldingAt(positions: map<Key, Holding>, k: Key): Holding {
    if k in positions then positions[k] else Flat
  }

  function Snapshot(id: string, o: SimOrder): BrokerOrder {
    BrokerOrder(id, o.tag, o.status, o.quantity, o.filled, o.average)
  }

  // ---- One order ----

  /** The units the next step fills. */
  function NextFill(o: SimOrder): nat {
    var left := o.quantity - o.filled;
    var step := if o.remaining <= 1 then left else Min(o.stepQuantity, left);
    if o.outcome.Rejection? || step < 0 then 0 else step
  }

  function FillBy(o: SimOrder, delta: nat, price: real): SimOrder {
    if delta == 0 then o
    else
      var paid := PriceOr(o.average, None) * o.filled as real + price * delta as real;
      o.(filled := o.filled + delta, average := Some(paid / (o.filled + delta) as real))
  }

  /** One resolution step of a live order. */
  function Stepped(o: SimOrder, t: Tick): SimOrder {
    if o.outcome.Rejection? then o.(status := Rejected, remaining := 0)
    else
      var f := FillBy(o, NextFill(o), t.price);
      if f.filled >= f.quantity then f.(status := Complete, remaining := 0)
      else f.(status := Open, remaining := if o.remaining >= 1 then o.remaining - 1 else 0, resolveAt := t.next)
  }

  predicate Due(o: SimOrder, t: Tick, force: bool) {
    o.Live() && (force || t.now >= o.resolveAt)
  }

  // ---- The book ----

  /** The ledger entry of a fill; nothing is entered for no units. */
  function Post(positions: map<Key, Holding>, key: Key, side: Side, n: nat, price: real): map<Key, Holding> {
    if n == 0 then positions else positions[key := Update(HoldingAt(positions, key), side, n, price)]
  }

  function Process(b: Book, id: string, t: Tick, force: bool): Book {
    if id !in b.orders || !Due(b.orders[id], t, force) then b
    else
      var o := b.orders[id];
      var next, n := Stepped(o, t), NextFill(o);
      b.(orders := b.orders[id := next],
         positions := Post(b.positions, o.key, o.side, n, t.price),
         sent := b.sent + [Snapshot(id, next)])
  }

  /** One pass over the orders listed in `ids`. */
  function Sweep(b: Book, ids: seq<string>, round: nat, market: Market, force: bool): Book
    decreases |ids|
  {
    if ids == [] then b else Sweep(Process(b, ids[0], market(round, ids[0]), force), ids[1..], round, market, force)
  }

  ghost predicate AnyLive(b: Book) {
    exists id :: id in b.ids && id in b.orders && b.orders[id].Live()
  }

  /** Forced passes until one finds nothing to do. */
  ghost function Drain(b: Book, round: nat, market: Market): Book
    decreases Work(b.ids, b.orders)
  {
    if !AnyLive(b) then b
    else
      SweepWorks(b, b.ids, round, market);
      Drain(Sweep(b, b.ids, round, market, true), round + 1, market)
  }

  function Placed(b: Book, id: string, o: SimOrder): Book {
    b.(ids := b.ids + [id], orders := b.orders[id := o], byTag := b.byTag[o.tag := id])
  }

  function Changed(b: Book, id: string, o: SimOrder): Book {
    b.(orders := b.orders[id := o], sent := b.sent + [Snapshot(id, o)])
  }

  function NewOrder(tag: string, key: Key, side: Side, quantity: nat, outcome: Outcome, steps: nat, due: int): SimOrder
    requires steps >= 1
  {
    var partial := outcome.PartialThenFill?;
    var step := if !partial then quantity else if quantity / steps >= 1 then quantity / steps else 1;
    SimOrder(tag, key, side, quantity, Open, 0, None, outcome, due, if partial then steps else 1, step)
  }

  // ---- A drain ends ----

  /** Steps still to take, counting the pass that notices a finished plan. */
  function Work(ids: seq<string>, orders: map<string, SimOrder>): nat {
    if ids == [] then 0
    else
      (if ids[0] in orders && orders[ids[0]].Live() then 1 + orders[ids[0]].remaining else 0) + Work(ids[1..], orders)
  }

  lemma {:induction false} LessWork(ids: seq<string>, orders: map<string, SimOrder>, id: string, o: SimOrder)
    requires id in orders && orders[id].Live() && (o.Live() ==> o.remaining < orders[id].remaining)
    ensures Work(ids, orders[id := o]) <= Work(ids, orders)
    ensures id in ids ==> Work(ids, orders[id := o]) < Work(ids, orders)
  {
    if ids != [] {
      LessWork(ids[1..], orders, id, o);
    }
  }

  lemma ProcessWorks(b: Book, id: string, t: Tick, force: bool, all: seq<string>)
    ensures var c := Process(b, id, t, force);
      Work(all, c.orders) <= Work(all, b.orders) &&
      (id in all && id in b.orders && Due(b.orders[id], t, force) ==> Work(all, c.orders) < Work(all, b.orders))
  {
    if id in b.orders && Due(b.orders[id], t, force) {
      LessWork(all, b.orders, id, Stepped(b.orders[id], t));
    }
  }

  lemma {:induction false} SweepWorksAmong(b: Book, ids: seq<string>, round: nat, market: Market, all: seq<string>)
    ensures var c := Sweep(b, ids, round, market, true);
      && c.ids == b.ids && c.orders.Keys == b.orders.Keys
      && Work(all, c.orders) <= Work(all, b.orders)
      && ((exists id :: id in ids && id in all && id in b.orders && b.orders[id].Live()) ==>
        Work(all, c.orders) < Work(all, b.orders))
    decreases |ids|
  {
    if ids != [] {
      var t := market(round, ids[0]);
      ProcessWorks(b, ids[0], t, true, all);
      SweepWorksAmong(Process(b, ids[0], t, true), ids[1..], round, market, all);
    }
  }

  lemma SweepWorks(b: Book, ids: seq<string>, round: nat, market: Market)
    ensures var c := Sweep(b, ids, round, market, true);
      c.ids == b.ids && ((exists id :: id in ids && id in b.ids && id in b.orders && b.orders[id].Live())
        ==> Work(c.ids, c.orders) < Work(b.ids, b.orders))
  {
    SweepWorksAmong(b, ids, round, market, b.ids);
  }

  // ---- Where an order is headed ----

  /** The status and fill an order ends with if nobody modifies or cancels it. */
  function Destiny(o: SimOrder): (OrderStatus, nat) {
    if !o.Live() then (o.status, o.filled)
    else if o.outcome.Rejection? then (Rejected, o.filled)
    else (Complete, o.quantity)
  }

  ghost predicate SameDestinies(b: Book, c: Book) {
    c.ids == b.ids && c.orders.Keys == b.orders.Keys && c.byTag == b.byTag &&
    forall id :: id in b.orders ==> Onward(b.orders[id], c.orders[id])
  }

  /** The same order, further along its plan. */
  predicate Onward(o: SimOrder, later: SimOrder) {
    Destiny(later) == Destiny(o) && later.tag == o.tag && o.filled <= later.filled && (!o.Live() ==> later == o)
  }

  lemma StepIsOnward(o: SimOrder, t: Tick)
    requires OrderOk(o) && o.Live()
    ensures Onward(o, Stepped(o, t))
  {
  }

  lemma ProcessKeepsDestiny(b: Book, id: string, t: Tick, force: bool)
    requires OrdersOk(b)
    ensures SameDestinies(b, Process(b, id, t, force))
  {
    if id in b.orders && Due(b.orders[id], t, force) {
      StepIsOnward(b.orders[id], t);
    }
  }

  lemma {:induction false} SweepKeepsDestiny(b: Book, ids: seq<string>, round: nat, market: Market, force: bool)
    requires Sound(b)
    ensures Sound(Sweep(b, ids, round, market, force)) && SameDestinies(b, Sweep(b, ids, round, market, force))
    decreases |ids|
  {
    if ids != [] {
      var t := market(round, ids[0]);
      ProcessKeepsDestiny(b, ids[0], t, force);
      ProcessIsSound(b, ids[0], t, force);
      SweepKeepsDestiny(Process(b, ids[0], t, force), ids[1..], round, market, force);
    }
  }

  /** Whatever prices and clock it meets, a drain leaves every order terminal, with
      exactly the status and fill it was headed for. */
  lemma {:induction false} DrainCompletes(b: Book, round: nat, market: Market)
    requires Sound(b)
    ensures var c := Drain(b, round, market);
      && Sound(c) && SameDestinies(b, c) && !AnyLive(c)
      && forall id :: id in b.orders ==> (c.orders[id].status, c.orders[id].filled) == Destiny(b.orders[id])
    decreases Work(b.ids, b.orders)
  {
    if AnyLive(b) {
      SweepWorks(b, b.ids, round, market);
      SweepKeepsDestiny(b, b.ids, round, market, true);
      DrainCompletes(Sweep(b, b.ids, round, market, true), round + 1, market);
    }
  }

  // ---- How an order gets there ----

  function StepAll(o: SimOrder, ticks: seq<Tick>): SimOrder
    decreases |ticks|
  {
    if ticks == [] then o else StepAll(if o.Live() then Stepped(o, ticks[0]) else o, ticks[1..])
  }

  lemma {:induction false} EndedStays(o: SimOrder, ticks: seq<Tick>)
    requires !o.Live()
    ensures StepAll(o, ticks) == o
  {
    if ticks != [] {
      EndedStays(o, ticks[1..]);
    }
  }

  /** What a plan of `left` steps of `share` units has filled after `k` of them. */
  function Planned(filled: nat, quantity: nat, share: nat, left: nat, k: nat): int {
    if k >= left then quantity else Min(filled + k * share, quantity)
  }

  lemma PlannedStep(filled: nat, quantity: nat, share: nat, left: nat, k: nat)
    requires filled <= quantity && share >= 1 && left >= 2 && k >= 1
    ensures var next := Min(filled + share, quantity);
      Planned(filled, quantity, share, left, k) ==
        if next == quantity then quantity else Planned(next, quantity, share, left - 1, k - 1)
  {
    assert k * share == (k - 1) * share + share && (k - 1) * share >= 0;
  }

  lemma StepFills(o: SimOrder, t: Tick)
    requires OrderOk(o) && o.Live() && !o.outcome.Rejection? && o.stepQuantity >= 1
    ensures var next := Stepped(o, t);
      && OrderOk(next) && next.quantity == o.quantity && next.stepQuantity == o.stepQuantity &&
        next.outcome == o.outcome
      && next.filled == (if o.remaining <= 1 then o.quantity else Min(o.filled + o.stepQuantity, o.quantity))
      && (if next.filled == o.quantity then next.status.Complete? else next.Live() && next.remaining == o.remaining - 1)
  {
  }

  /** A plan fills `stepQuantity` units a step and whatever is left on its last step;
      an order too small for its steps is done early. */
  lemma {:induction false} FillsInSteps(o: SimOrder, ticks: seq<Tick>)
    requires OrderOk(o) && o.Live() && !o.outcome.Rejection? && o.stepQuantity >= 1
    ensures var last := StepAll(o, ticks);
      && last.filled == Planned(o.filled, o.quantity, o.stepQuantity, o.remaining, |ticks|)
      && (ticks != [] ==> (last.status.Complete? <==> last.filled == o.quantity))
    decreases |ticks|
  {
    if ticks == [] {
      assert 0 * o.stepQuantity == 0;
    } else {
      var next := Stepped(o, ticks[0]);
      StepFills(o, ticks[0]);
      if o.remaining >= 2 {
        PlannedStep(o.filled, o.quantity, o.stepQuantity, o.remaining, |ticks|);
      }
      if next.Live() {
        FillsInSteps(next, ticks[1..]);
      } else {
        EndedStays(next, ticks[1..]);
      }
    }
  }

  lemma EqualShares(quantity: nat, steps: nat, k: nat)
    requires 1 <= steps <= quantity
    ensures quantity / steps >= 1
    ensures Planned(0, quantity, quantity / steps, steps, k) == if k >= steps then quantity else k * (quantity / steps)
    ensures k < steps ==> k * (quantity / steps) < quantity
  {
    var share := quantity / steps;
    assert share >= 1 && steps * share <= quantity;
    if k < steps {
      assert (steps - k) * share >= 1;
      assert steps * share == k * share + (steps - k) * share;
    }
  }

  /** So a new order that fills in parts takes exactly its number of steps, each of an
      equal share, if its quantity allows. */
  lemma NewOrderFillsInSteps(o: SimOrder, steps: nat, ticks: seq<Tick>)
    requires 1 <= steps <= o.quantity
    requires o == NewOrder(o.tag, o.key, o.side, o.quantity, PartialThenFill, steps, o.resolveAt)
    ensures var last := StepAll(o, ticks);
      && last.filled == (if |ticks| >= steps then o.quantity else |ticks| * (o.quantity / steps))
      && (last.status.Complete? <==> |ticks| >= steps)
  {
    EqualShares(o.quantity, steps, |ticks|);
    FillsInSteps(o, ticks);
  }

  /** An order of fewer units than steps fills one unit a step. */
  lemma SmallOrderFillsByOne(o: SimOrder, steps: nat, ticks: seq<Tick>)
    requires 1 <= o.quantity < steps
    requires o == NewOrder(o.tag, o.key, o.side, o.quantity, PartialThenFill, steps, o.resolveAt)
    ensures StepAll(o, ticks).filled == Min(|ticks|, o.quantity)
  {
    NoShare(o.quantity, steps);
    FillsInSteps(o, ticks);
    ByOne(o.quantity, steps, |ticks|);
  }

  lemma NoShare(quantity: nat, steps: nat)
    requires quantity < steps
    ensures quantity / steps == 0
  {
  }

  lemma ByOne(quantity: nat, steps: nat, k: nat)
    requires quantity < steps
    ensures Planned(0, quantity, 1, steps, k) == Min(k, quantity)
  {
  }

  /** And any other order is done in one step: filled, or rejected with nothing filled. */
  lemma OneStepOrder(o: SimOrder, steps: nat, ticks: seq<Tick>)
    requires o.quantity >= 1 && ticks != [] && !o.outcome.PartialThenFill? && steps >= 1
    requires o == NewOrder(o.tag, o.key, o.side, o.quantity, o.outcome, steps, o.resolveAt)
    ensures var last := StepAll(o, ticks);
      if o.outcome.Rejection? then last.status.Rejected? && last.filled == 0
      else last.status.Complete? && last.filled == o.quantity
  {
    EndedStays(Stepped(o, ticks[0]), ticks[1..]);
  }

  // ---- When an order is worked on ----

  /** The ticks at which an order is due: the first one at or past `due`, and after each
      the first at or past the time that one set. */
  function DueTicks(due: int, ticks: seq<Tick>): seq<Tick>
    decreases |ticks|
  {
    if ticks == [] then []
    else if ticks[0].now < due then DueTicks(due, ticks[1..])
    else [ticks[0]] + DueTicks(ticks[0].next, ticks[1..])
  }

  lemma {:induction false} SweepReaches(b: Book, ids: seq<string>, round: nat, market: Market, force: bool, id: string)
    requires id in b.orders && forall m, n :: 0 <= m < n < |ids| ==> ids[m] != ids[n]
    ensures var c := Sweep(b, ids, round, market, force);
      id in c.orders &&
      c.orders[id] == if id in ids then Process(b, id, market(round, id), force).orders[id] else b.orders[id]
    decreases |ids|
  {
    if ids != [] {
      SweepReaches(Process(b, ids[0], market(round, ids[0]), force), ids[1..], round, market, force, id);
    }
  }

  function TicksFor(markets: seq<Market>, id: string): seq<Tick> {
    seq(|markets|, n requires 0 <= n < |markets| => markets[n](0, id))
  }

  function Passes(markets: seq<Market>): seq<Op> {
    seq(|markets|, n requires 0 <= n < |markets| => Resolve(markets[n], false))
  }

  /** One tick of an order that respects its time. */
  function Woken(o: SimOrder, t: Tick): SimOrder {
    if Due(o, t, false) then Stepped(o, t) else o
  }

  lemma OneTick(o: SimOrder, ticks: seq<Tick>)
    requires ticks != []
    ensures var next := Woken(o, ticks[0]);
      StepAll(next, DueTicks(next.resolveAt, ticks[1..])) == StepAll(o, DueTicks(o.resolveAt, ticks))
  {
    var rest := ticks[1..];
    if !o.Live() {
      EndedStays(o, DueTicks(o.resolveAt, ticks));
      EndedStays(o, DueTicks(o.resolveAt, rest));
    } else if ticks[0].now >= o.resolveAt {
      var next := Stepped(o, ticks[0]);
      assert DueTicks(o.resolveAt, ticks)[1..] == DueTicks(ticks[0].next, rest);
      if !next.Live() {
        EndedStays(next, DueTicks(ticks[0].next, rest));
        EndedStays(next, DueTicks(next.resolveAt, rest));
      }
    }
  }

  lemma OnePass(b: Book, market: Market, id: string)
    requires Sound(b) && id in b.orders
    ensures var c := Next(b, Resolve(market, false));
      Sound(c) && id in c.orders && c.orders[id] == Woken(b.orders[id], market(0, id))
  {
    SweepKeepsDestiny(b, b.ids, 0, market, false);
    SweepReaches(b, b.ids, 0, market, false, id);
  }

  lemma PassesFirst(markets: seq<Market>, id: string)
    requires markets != []
    ensures Passes(markets)[0] == Resolve(markets[0], false) && Passes(markets)[1..] == Passes(markets[1..])
    ensures TicksFor(markets, id)[0] == markets[0](0, id) && TicksFor(markets, id)[1..] == TicksFor(markets[1..], id)
  {
  }

  /** Respectful passes, whatever else is in the book, take an order exactly one step at
      each tick at which it is due, and none in between. */
  lemma {:induction false} StepsWhenDue(b: Book, markets: seq<Market>, id: string)
    requires Sound(b) && id in b.orders
    ensures CanRun(b, Passes(markets)) && id in Run(b, Passes(markets)).orders
    ensures Run(b, Passes(markets)).orders[id] ==
      StepAll(b.orders[id], DueTicks(b.orders[id].resolveAt, TicksFor(markets, id)))
    decreases |markets|
  {
    if markets != [] {
      OnePass(b, markets[0], id);
      PassesFirst(markets, id);
      StepsWhenDue(Next(b, Resolve(markets[0], false)), markets[1..], id);
      OneTick(b.orders[id], TicksFor(markets, id));
    }
  }

  // ---- The ledger agrees with the order book ----

  /** Net units and net cash of a key's orders, by their own fills and averages. */
  function Units(ids: seq<string>, orders: map<string, SimOrder>, k: Key): int {
    if ids == [] then 0
    else
      (if ids[0] in orders && orders[ids[0]].key == k then UnitsOf(orders[ids[0]]) else 0)
      + Units(ids[1..], orders, k)
  }

  function Spent(ids: seq<string>, orders: map<string, SimOrder>, k: Key): real {
    if ids == [] then 0.0
    else
      (if ids[0] in orders && orders[ids[0]].key == k then SpentOn(orders[ids[0]]) else 0.0)
      + Spent(ids[1..], orders, k)
  }

  function UnitsOf(o: SimOrder): int {
    Signed(o.side, o.filled)
  }

  function SpentOn(o: SimOrder): real {
    Signed(o.side, o.filled) as real * PriceOr(o.average, None)
  }

  ghost predicate Agrees(b: Book) {
    forall k :: AgreesAt(b, k)
  }

  ghost predicate AgreesAt(b: Book, k: Key) {
    Accounts(HoldingAt(b.positions, k), Units(b.ids, b.orders, k), Spent(b.ids, b.orders, k))
  }

  /** A holding of `units` units acquired for a net outlay of `spent`. */
  predicate Accounts(h: Holding, units: int, spent: real) {
    h.quantity == units && CashOf(h) == -spent && Squared(h)
  }

  predicate OrderOk(o: SimOrder) {
    && o.filled <= o.quantity
    && (o.status.Complete? ==> o.filled == o.quantity)
    && (o.Live() <==> o.remaining >= 1)
    && (o.outcome.Rejection? ==> o.filled == 0)
    && (o.average.Some? <==> o.filled > 0)
    && !o.status.Error?
  }

  ghost predicate OrdersOk(b: Book) {
    forall id :: id in b.orders ==> OrderOk(b.orders[id])
  }

  ghost predicate Listed(b: Book) {
    (forall m, n :: 0 <= m < n < |b.ids| ==> b.ids[m] != b.ids[n]) && forall id :: id in b.ids <==> id in b.orders
  }

  /** The most recently placed order with this tag. */
  function Latest(ids: seq<string>, orders: map<string, SimOrder>, tag: string): Option<string> {
    if ids == [] then None
    else
      var id := ids[|ids| - 1];
      if id in orders && orders[id].tag == tag then Some(id) else Latest(ids[..|ids| - 1], orders, tag)
  }

  ghost predicate TagsRight(b: Book) {
    forall tag :: (if tag in b.byTag then Some(b.byTag[tag]) else None) == Latest(b.ids, b.orders, tag)
  }

  /** Snapshots are only ever of orders in the book. */
  ghost predicate Announced(b: Book) {
    forall m :: 0 <= m < |b.sent| ==> b.sent[m].id in b.orders
  }

  ghost predicate Sound(b: Book) {
    Listed(b) && OrdersOk(b) && TagsRight(b) && Announced(b) && Agrees(b)
  }

  lemma {:induction false} SumsUpdate(ids: seq<string>, orders: map<string, SimOrder>, id: string, o: SimOrder, k: Key)
    requires forall m, n :: 0 <= m < n < |ids| ==> ids[m] != ids[n]
    requires id in orders && o.key == orders[id].key
    ensures id !in ids || o.key != k ==>
      Units(ids, orders[id := o], k) == Units(ids, orders, k) && Spent(ids, orders[id := o], k) == Spent(ids, orders, k)
    ensures id in ids && o.key == k ==>
      && Units(ids, orders[id := o], k) == Units(ids, orders, k) + UnitsOf(o) - UnitsOf(orders[id])
      && Spent(ids, orders[id := o], k) == Spent(ids, orders, k) + SpentOn(o) - SpentOn(orders[id])
  {
    if ids != [] {
      SumsUpdate(ids[1..], orders, id, o, k);
    }
  }

  lemma {:induction false} SumsAppend(ids: seq<string>, orders: map<string, SimOrder>, id: string, o: SimOrder, k: Key)
    requires id !in ids && o.filled == 0
    ensures Units(ids + [id], orders[id := o], k) == Units(ids, orders, k)
    ensures Spent(ids + [id], orders[id := o], k) == Spent(ids, orders, k)
  {
    if ids == [] {
      assert ids + [id] == [id];
      assert Units([id][1..], orders[id := o], k) == 0 && Spent([id][1..], orders[id := o], k) == 0.0;
    } else {
      assert (ids + [id])[0] == ids[0] && (ids + [id])[1..] == ids[1..] + [id];
      SumsAppend(ids[1..], orders, id, o, k);
    }
  }

  lemma {:induction false} LatestSame(
      ids: seq<string>, orders: map<string, SimOrder>, id: string, o: SimOrder, tag: string)
    requires id !in ids || (id in orders && o.tag == orders[id].tag)
    ensures Latest(ids, orders[id := o], tag) == Latest(ids, orders, tag)
  {
    if ids != [] {
      LatestSame(ids[..|ids| - 1], orders, id, o, tag);
    }
  }

  /** A step pays for exactly the units it fills. */
  lemma StepPays(o: SimOrder, t: Tick)
    requires OrderOk(o) && o.Live()
    ensures Paid(o, Stepped(o, t), Signed(o.side, NextFill(o)), t.price) && OrderOk(Stepped(o, t))
  {
    FillPays(o, NextFill(o), t.price);
    assert SpentOn(Stepped(o, t)) == SpentOn(FillBy(o, NextFill(o), t.price));
  }

  lemma FillPays(o: SimOrder, n: nat, price: real)
    requires o.average.Some? <==> o.filled > 0
    ensures Paid(o, FillBy(o, n, price), Signed(o.side, n), price)
  {
    if n > 0 {
      var paid := PriceOr(o.average, None);
      Divide(paid * o.filled as real + price * n as real, (o.filled + n) as real);
      SignedCost(FillBy(o, n, price).average.value, Signed(o.side, o.filled + n), paid, UnitsOf(o), price,
        Signed(o.side, n));
    }
  }

  /** `next` is `o` with `n` more net units, paid for at `price`. */
  predicate Paid(o: SimOrder, next: SimOrder, n: int, price: real) {
    UnitsOf(next) == UnitsOf(o) + n && SpentOn(next) == SpentOn(o) + n as real * price
  }

  lemma ProcessAgrees(b: Book, id: string, t: Tick, force: bool, k: Key)
    requires Listed(b) && id in b.orders && OrderOk(b.orders[id]) && Due(b.orders[id], t, force)
    requires AgreesAt(b, k)
    ensures AgreesAt(Process(b, id, t, force), k)
  {
    var o, next := b.orders[id], Stepped(b.orders[id], t);
    ProcessTotals(b, id, t, k);
    PostAccounts(b.positions, o.key, o.side, NextFill(o), t.price, k, Units(b.ids, b.orders, k),
      Spent(b.ids, b.orders, k));
    AgreesAfter(b, Process(b, id, t, force), id, next, k, Signed(o.side, NextFill(o)), t.price);
  }

  lemma ProcessTotals(b: Book, id: string, t: Tick, k: Key)
    requires Listed(b) && id in b.orders && OrderOk(b.orders[id]) && b.orders[id].Live()
    ensures var o := b.orders[id]; StepTotals(b, id, Stepped(o, t), k, Signed(o.side, NextFill(o)), t.price)
  {
    var o := b.orders[id];
    StepPays(o, t);
    SumsStep(b, id, Stepped(o, t), k, Signed(o.side, NextFill(o)), t.price);
  }

  lemma PostAccounts(
      positions: map<Key, Holding>, key: Key, side: Side, n: nat, price: real, k: Key, units: int, spent: real)
    requires Accounts(HoldingAt(positions, k), units, spent)
    ensures AccountsFor(Post(positions, key, side, n, price), key == k, k, units, spent, Signed(side, n), price)
  {
    if key == k {
      FillMovesCash(HoldingAt(positions, k), side, n, price);
      StepAccounts(HoldingAt(positions, k), Update(HoldingAt(positions, k), side, n, price), units, spent,
        Signed(side, n), price);
    }
  }

  predicate AccountsFor(
      positions: map<Key, Holding>, mine: bool, k: Key, units: int, spent: real, n: int, price: real) {
    if mine then Accounts(HoldingAt(positions, k), units + n, spent + n as real * price)
    else Accounts(HoldingAt(positions, k), units, spent)
  }

  lemma AgreesAfter(b: Book, c: Book, id: string, next: SimOrder, k: Key, n: int, price: real)
    requires c.ids == b.ids && id in b.orders && c.orders == b.orders[id := next]
    requires StepTotals(b, id, next, k, n, price)
    requires AccountsFor(c.positions, next.key == k, k, Units(b.ids, b.orders, k), Spent(b.ids, b.orders, k), n, price)
    ensures AgreesAt(c, k)
  {
  }

  /** Replacing one order adds `n` units, bought at `price`, to the totals of its key. */
  ghost predicate StepTotals(b: Book, id: string, next: SimOrder, k: Key, n: int, price: real) {
    var (units, spent) := (Units(b.ids, b.orders, k), Spent(b.ids, b.orders, k));
    var mine := next.key == k;
    && Units(b.ids, b.orders[id := next], k) == (if mine then units + n else units)
    && Spent(b.ids, b.orders[id := next], k) == (if mine then spent + n as real * price else spent)
  }

  lemma SumsStep(b: Book, id: string, next: SimOrder, k: Key, n: int, price: real)
    requires Listed(b) && id in b.orders && next.key == b.orders[id].key
    requires Paid(b.orders[id], next, n, price)
    ensures StepTotals(b, id, next, k, n, price)
  {
    SumsUpdate(b.ids, b.orders, id, next, k);
  }

  lemma StepAccounts(h: Holding, next: Holding, units: int, spent: real, n: int, price: real)
    requires Accounts(h, units, spent) && Moves(h, next, n, price)
    ensures Accounts(next, units + n, spent + n as real * price)
    ensures n == 0 ==> Accounts(h, units + n, spent + n as real * price)
  {
  }

  lemma ProcessIsSound(b: Book, id: string, t: Tick, force: bool)
    requires Sound(b)
    ensures Sound(Process(b, id, t, force))
  {
    if id in b.orders && Due(b.orders[id], t, force) {
      var c := Process(b, id, t, force);
      forall k ensures AgreesAt(c, k) { assert AgreesAt(b, k); ProcessAgrees(b, id, t, force, k); }
      forall tag ensures Latest(c.ids, c.orders, tag) == Latest(b.ids, b.orders, tag) {
        LatestSame(b.ids, b.orders, id, Stepped(b.orders[id], t), tag);
      }
      StepPays(b.orders[id], t);
    }
  }

  lemma PlacedIsSound(b: Book, id: string, o: SimOrder)
    requires Sound(b) && id !in b.orders && OrderOk(o) && o.filled == 0
    ensures Sound(Placed(b, id, o))
  {
    var c := Placed(b, id, o);
    forall k ensures AgreesAt(c, k) { assert AgreesAt(b, k); PlacedAgrees(b, id, o, k); }
    assert Listed(c) && TagsRight(c) by { PlacedIsListed(b, id, o); }
  }

  lemma PlacedIsListed(b: Book, id: string, o: SimOrder)
    requires Listed(b) && TagsRight(b) && id !in b.orders
    ensures Listed(Placed(b, id, o)) && TagsRight(Placed(b, id, o))
  {
    var c := Placed(b, id, o);
    forall tag ensures Latest(c.ids, c.orders, tag) == if tag == o.tag then Some(id) else Latest(b.ids, b.orders, tag) {
      assert c.ids[..|c.ids| - 1] == b.ids;
      LatestSame(b.ids, b.orders, id, o, tag);
    }
  }

  lemma PlacedAgrees(b: Book, id: string, o: SimOrder, k: Key)
    requires Listed(b) && id !in b.orders && o.filled == 0 && AgreesAt(b, k)
    ensures AgreesAt(Placed(b, id, o), k)
  {
    SumsAppend(b.ids, b.orders, id, o, k);
  }

  /** A change that fills nothing: what modifying or cancelling an order does. */
  lemma ChangedIsSound(b: Book, id: string, o: SimOrder)
    requires Sound(b) && id in b.orders && OrderOk(o) && SameFill(b.orders[id], o)
    ensures Sound(Changed(b, id, o))
  {
    var c := Changed(b, id, o);
    forall k ensures AgreesAt(c, k) { assert AgreesAt(b, k); ChangedAgrees(b, id, o, k); }
    forall tag ensures Latest(c.ids, c.orders, tag) == Latest(b.ids, b.orders, tag) {
      LatestSame(b.ids, b.orders, id, o, tag);
    }
  }

  predicate SameFill(was: SimOrder, o: SimOrder) {
    o.tag == was.tag && o.key == was.key && o.side == was.side && o.filled == was.filled && o.average == was.average
  }

  lemma SameFillSameSums(was: SimOrder, o: SimOrder)
    requires SameFill(was, o)
    ensures UnitsOf(o) == UnitsOf(was) && SpentOn(o) == SpentOn(was)
  {
  }

  lemma ChangedAgrees(b: Book, id: string, o: SimOrder, k: Key)
    requires Listed(b) && id in b.orders && SameFill(b.orders[id], o) && AgreesAt(b, k)
    ensures AgreesAt(Changed(b, id, o), k)
  {
    SumsUpdate(b.ids, b.orders, id, o, k);
    SameFillSameSums(b.orders[id], o);
  }

  // ---- Every reachable state ----

  datatype Op =
    | Place(id: string, tag: string, key: Key, side: Side, quantity: nat, outcome: Outcome, steps: nat, due: int)
    | Modify(id: string, change: Option<nat>)
    | Cancel(id: string)
    | Resolve(market: Market, force: bool)

  /** Order ids are never minted twice. */
  predicate Possible(b: Book, op: Op) {
    op.Place? ==> op.id !in b.orders && op.steps >= 1 && op.quantity > 0
  }

  predicate Modifiable(b: Book, id: string, quantity: Option<nat>) {
    id in b.orders && b.orders[id].Live() && (quantity.Some? ==> quantity.value >= b.orders[id].filled)
  }

  predicate Cancellable(b: Book, id: string) {
    id in b.orders && b.orders[id].Live()
  }

  function Modified(o: SimOrder, quantity: Option<nat>): SimOrder {
    if quantity.Some? then o.(quantity := quantity.value) else o
  }

  function Withdrawn(o: SimOrder): SimOrder {
    o.(status := Cancelled, remaining := 0)
  }

  function Next(b: Book, op: Op): Book
    requires Possible(b, op)
  {
    match op
    case Place(id, tag, key, side, quantity, outcome, steps, due) =>
      Placed(b, id, NewOrder(tag, key, side, quantity, outcome, steps, due))
    case Modify(id, quantity) =>
      if Modifiable(b, id, quantity) then Changed(b, id, Modified(b.orders[id], quantity)) else b
    case Cancel(id) =>
      if Cancellable(b, id) then Changed(b, id, Withdrawn(b.orders[id])) else b
    case Resolve(market, force) => Sweep(b, b.ids, 0, market, force)
  }

  ghost predicate CanRun(b: Book, ops: seq<Op>)
    decreases |ops|
  {
    ops != [] ==> Possible(b, ops[0]) && CanRun(Next(b, ops[0]), ops[1..])
  }

  ghost function Run(b: Book, ops: seq<Op>): Book
    requires CanRun(b, ops)
    decreases |ops|
  {
    if ops == [] then b else Run(Next(b, ops[0]), ops[1..])
  }

  lemma NextIsSound(b: Book, op: Op)
    requires Sound(b) && Possible(b, op)
    ensures Sound(Next(b, op))
  {
    match op
    case Place(id, tag, key, side, quantity, outcome, steps, due) =>
      PlacedIsSound(b, id, NewOrder(tag, key, side, quantity, outcome, steps, due));
    case Modify(id, quantity) =>
      if Modifiable(b, id, quantity) { ChangedIsSound(b, id, Modified(b.orders[id], quantity)); }
    case Cancel(id) =>
      if Cancellable(b, id) { ChangedIsSound(b, id, Withdrawn(b.orders[id])); }
    case Resolve(market, force) => SweepKeepsDestiny(b, b.ids, 0, market, force);
  }

  /** In every reachable state the ledger agrees with the order book, fills stay
      within their orders, COMPLETE means filled, and a tag finds its latest order. */
  lemma {:induction false} RunIsSound(b: Book, ops: seq<Op>)
    requires Sound(b) && CanRun(b, ops)
    ensures Sound(Run(b, ops))
    decreases |ops|
  {
    if ops != [] {
      NextIsSound(b, ops[0]);
      RunIsSound(Next(b, ops[0]), ops[1..]);
    }
  }

  // ---- What lasts of an order ----

  /** The same order later on: what was asked for stays, and an ended order stays as it is. */
  predicate Lasts(o: SimOrder, later: SimOrder) {
    && later.tag == o.tag && later.key == o.key && later.side == o.side && later.outcome == o.outcome
    && o.filled <= later.filled && (!o.Live() ==> later == o)
  }

  lemma ProcessLasts(b: Book, at: string, t: Tick, force: bool, id: string)
    requires OrdersOk(b) && id in b.orders
    ensures var c := Process(b, at, t, force);
      id in c.orders && Lasts(b.orders[id], c.orders[id]) && c.orders[id].quantity == b.orders[id].quantity
  {
  }

  lemma {:induction false} SweepLasts(b: Book, ids: seq<string>, round: nat, market: Market, force: bool, id: string)
    requires Sound(b) && id in b.orders
    ensures var c := Sweep(b, ids, round, market, force);
      id in c.orders && Lasts(b.orders[id], c.orders[id]) && c.orders[id].quantity == b.orders[id].quantity
    decreases |ids|
  {
    if ids != [] {
      var t := market(round, ids[0]);
      ProcessLasts(b, ids[0], t, force, id);
      ProcessIsSound(b, ids[0], t, force);
      SweepLasts(Process(b, ids[0], t, force), ids[1..], round, market, force, id);
    }
  }

  lemma NextLasts(b: Book, op: Op, id: string)
    requires Sound(b) && Possible(b, op) && id in b.orders
    ensures id in Next(b, op).orders && Lasts(b.orders[id], Next(b, op).orders[id])
  {
    match op
    case Resolve(market, force) => SweepLasts(b, b.ids, 0, market, force, id);
    case Modify(_, _) =>
    case Cancel(_) =>
    case Place(_, _, _, _, _, _, _, _) =>
  }

  lemma {:induction false} OrderLasts(b: Book, id: string, ops: seq<Op>)
    requires Sound(b) && CanRun(b, ops) && id in b.orders
    ensures id in Run(b, ops).orders && Lasts(b.orders[id], Run(b, ops).orders[id])
    decreases |ops|
  {
    if ops != [] {
      NextIsSound(b, ops[0]);
      NextLasts(b, ops[0], id);
      OrderLasts(Next(b, ops[0]), id, ops[1..]);
    }
  }

  /** Whatever happens afterwards, the book has the order that was placed: its tag, its
      instrument, its side; and while nobody changes it, its quantity and its end. */
  lemma PlacedLasts(b: Book, place: Op, ops: seq<Op>)
    requires Sound(b) && place.Place? && Possible(b, place) && CanRun(Next(b, place), ops)
    ensures place.id in Run(Next(b, place), ops).orders
    ensures var o := Run(Next(b, place), ops).orders[place.id];
      && o.tag == place.tag && o.key == place.key && o.side == place.side
      && (o.status.Rejected? ==> o.filled == 0) && (o.status.Complete? ==> o.filled == o.quantity)
      && (o.status.Complete? || o.status.Rejected? ==> (o.status.Rejected? <==> place.outcome.Rejection?))
  {
    NextIsSound(b, place);
    OrderLasts(Next(b, place), place.id, ops);
    RunIsSound(Next(b, place), ops);
    RunEnds(Next(b, place), place.id, ops);
  }

  /** An order only ever ends as its outcome has it, or cancelled. */
  predicate EndsAsPlanned(o: SimOrder) {
    && (o.status.Rejected? ==> o.outcome.Rejection? && o.filled == 0)
    && (o.status.Complete? ==> !o.outcome.Rejection?)
  }

  lemma {:induction false} SweepEnds(b: Book, ids: seq<string>, round: nat, market: Market, force: bool, id: string)
    requires Sound(b) && id in b.orders && EndsAsPlanned(b.orders[id])
    ensures var c := Sweep(b, ids, round, market, force); id in c.orders && EndsAsPlanned(c.orders[id])
    decreases |ids|
  {
    if ids != [] {
      ProcessIsSound(b, ids[0], market(round, ids[0]), force);
      SweepEnds(Process(b, ids[0], market(round, ids[0]), force), ids[1..], round, market, force, id);
    }
  }

  lemma NextEnds(b: Book, op: Op, id: string)
    requires Sound(b) && Possible(b, op) && id in b.orders && EndsAsPlanned(b.orders[id])
    ensures id in Next(b, op).orders && EndsAsPlanned(Next(b, op).orders[id])
  {
    match op
    case Resolve(market, force) => SweepEnds(b, b.ids, 0, market, force, id);
    case Modify(_, _) =>
    case Cancel(_) =>
    case Place(_, _, _, _, _, _, _, _) =>
  }

  lemma {:induction false} RunEnds(b: Book, id: string, ops: seq<Op>)
    requires Sound(b) && CanRun(b, ops) && id in b.orders && EndsAsPlanned(b.orders[id])
    ensures id in Run(b, ops).orders && EndsAsPlanned(Run(b, ops).orders[id])
    decreases |ops|
  {
    if ops != [] {
      NextIsSound(b, ops[0]);
      NextEnds(b, ops[0], id);
      RunEnds(Next(b, ops[0]), id, ops[1..]);
    }
  }

  /** A cancellation takes exactly on an order that is in the book and has not ended; from
      then on the order is cancelled, with the fill it had, whatever else happens. */
  lemma CancelLasts(b: Book, id: string, ops: seq<Op>)
    requires Sound(b) && CanRun(Next(b, Cancel(id)), ops)
    ensures Next(b, Cancel(id)) != b <==> id in b.orders && (b.orders[id].status.Pending? || b.orders[id].status.Open?)
    ensures id in b.orders && (b.orders[id].status.Pending? || b.orders[id].status.Open?) ==>
      var end := Run(Next(b, Cancel(id)), ops);
      id in end.orders && end.orders[id].status.Cancelled? && end.orders[id].filled == b.orders[id].filled
  {
    NextIsSound(b, Cancel(id));
    if id in b.orders {
      OrderLasts(Next(b, Cancel(id)), id, ops);
    }
  }

  /** A change of quantity takes exactly on such an order, when it is not below the fill;
      and unless the order is to be rejected, a drain then fills the new quantity. */
  lemma ModifyTakesIff(b: Book, id: string, quantity: nat, round: nat, market: Market)
    requires Sound(b)
    ensures var took := id in b.orders && (b.orders[id].status.Pending? || b.orders[id].status.Open?)
        && quantity >= b.orders[id].filled;
      && (Next(b, Modify(id, Some(quantity))) != b <==> took)
      && (took ==>
            var end := Drain(Next(b, Modify(id, Some(quantity))), round, market);
            && id in end.orders && end.orders[id].quantity == quantity
            && (if b.orders[id].outcome.Rejection? then end.orders[id].status.Rejected?
                else end.orders[id].status.Complete? && end.orders[id].filled == quantity))
  {
    var c := Next(b, Modify(id, Some(quantity)));
    NextIsSound(b, Modify(id, Some(quantity)));
    DrainCompletes(c, round, market);
    if id in b.orders {
      DrainLasts(c, round, market, id);
    }
  }

  lemma {:induction false} DrainLasts(b: Book, round: nat, market: Market, id: string)
    requires Sound(b) && id in b.orders
    ensures var c := Drain(b, round, market);
      id in c.orders && Lasts(b.orders[id], c.orders[id]) && c.orders[id].quantity == b.orders[id].quantity
    decreases Work(b.ids, b.orders)
  {
    if AnyLive(b) {
      SweepWorks(b, b.ids, round, market);
      SweepKeepsDestiny(b, b.ids, round, market, true);
      SweepLasts(b, b.ids, round, market, true, id);
      DrainLasts(Sweep(b, b.ids, round, market, true), round + 1, market, id);
    }
  }

  /** Hence from an empty book: what a position reports is fixed by the orders alone. */
  lemma PositionsFollowOrders(ops: seq<Op>, k: Key, last: real)
    requires CanRun(Empty, ops)
    ensures var b := Run(Empty, ops); Sound(b) && Reported(b, k, last)
  {
    RunIsSound(Empty, ops);
    BookFixesProfit(Run(Empty, ops), k, last);
  }

  /** What a key's orders have earned if the rest is sold at `last`. */
  ghost function Worth(b: Book, k: Key, last: real): real {
    Units(b.ids, b.orders, k) as real * last - Spent(b.ids, b.orders, k)
  }

  /** Quantity, marked profit and, when flat, realised profit of a position, read off the orders. */
  ghost predicate Reported(b: Book, k: Key, last: real) {
    var (h, units, spent) := (HoldingAt(b.positions, k), Units(b.ids, b.orders, k), Spent(b.ids, b.orders, k));
    && h.quantity == units
    && Marked(h, last) == Worth(b, k, last)
    && (units == 0 ==> h == Holding(0, 0.0, -spent))
  }

  lemma BookFixesProfit(b: Book, k: Key, last: real)
    requires Sound(b)
    ensures Reported(b, k, last)
  {
    assert AgreesAt(b, k);
    MarkedFrom(HoldingAt(b.positions, k), Units(b.ids, b.orders, k), -Spent(b.ids, b.orders, k), last);
  }

  // ---- What the exchange announces ----

  function Reports(sent: seq<BrokerOrder>, id: string): seq<BrokerOrder> {
    if sent == [] then []
    else
      var last := sent[|sent| - 1];
      Reports(sent[..|sent| - 1], id) + if last.id == id then [last] else []
  }

  /** So far, the order's snapshots form a history, and they end when it does. */
  ghost predicate Told(b: Book, id: string) {
    id in b.orders && Tells(Reports(b.sent, id), id, b.orders[id])
  }

  ghost predicate Tells(h: seq<BrokerOrder>, id: string, o: SimOrder) {
    && OrderUpdates.History(h, o.quantity)
    && (forall m :: 0 <= m < |h| ==> h[m].filled <= o.filled && h[m].id == id && h[m].tag == o.tag)
    && (if o.Live() then forall m :: 0 <= m < |h| ==> !h[m].status.Terminal()
        else h != [] && Shows(h[|h| - 1], id, o))
  }

  /** The snapshot says what the order is. */
  predicate Shows(u: BrokerOrder, id: string, o: SimOrder) {
    && u.id == id && u.tag == o.tag && u.status == o.status
    && u.quantity == o.quantity && u.filled == o.filled && u.price == o.average
  }

  /** A live order's next snapshot continues the history, a change of quantity included. */
  lemma TellsNext(h: seq<BrokerOrder>, id: string, o: SimOrder, next: SimOrder)
    requires Tells(h, id, o) && o.Live() && OrderOk(next) && o.filled <= next.filled && next.tag == o.tag
    ensures Tells(h + [Snapshot(id, next)], id, next)
  {
  }

  lemma ReportsSnoc(sent: seq<BrokerOrder>, u: BrokerOrder, id: string)
    ensures Reports(sent + [u], id) == Reports(sent, id) + if u.id == id then [u] else []
  {
    assert (sent + [u])[..|sent|] == sent;
  }

  lemma AnnounceKeepsTold(b: Book, id: string, c: Book, at: string)
    requires Told(b, id) && at in b.orders && b.orders[at].Live() && at in c.orders && OrderOk(c.orders[at])
    requires c.orders == b.orders[at := c.orders[at]] && c.sent == b.sent + [Snapshot(at, c.orders[at])]
    requires b.orders[at].filled <= c.orders[at].filled && c.orders[at].tag == b.orders[at].tag
    ensures Told(c, id)
  {
    ReportsSnoc(b.sent, Snapshot(at, c.orders[at]), id);
    if at == id {
      TellsNext(Reports(b.sent, id), id, b.orders[id], c.orders[id]);
    } else {
      assert c.orders[id] == b.orders[id];
    }
  }

  lemma ProcessKeepsTold(b: Book, id: string, at: string, t: Tick, force: bool)
    requires OrdersOk(b) && Told(b, id)
    ensures var c := Process(b, at, t, force); Told(c, id) && c.orders[id].quantity == b.orders[id].quantity
  {
    if at in b.orders && Due(b.orders[at], t, force) {
      StepPays(b.orders[at], t);
      AnnounceKeepsTold(b, id, Process(b, at, t, force), at);
    }
  }

  lemma {:induction false} SweepKeepsTold(
      b: Book, id: string, ids: seq<string>, round: nat, market: Market, force: bool)
    requires Sound(b) && Told(b, id)
    ensures var c := Sweep(b, ids, round, market, force); Told(c, id) && c.orders[id].quantity == b.orders[id].quantity
    decreases |ids|
  {
    if ids != [] {
      var at, t := ids[0], market(round, ids[0]);
      ProcessIsSound(b, at, t, force);
      ProcessKeepsTold(b, id, at, t, force);
      SweepKeepsTold(Process(b, at, t, force), id, ids[1..], round, market, force);
    }
  }

  predicate Modifies(op: Op, id: string) {
    op.Modify? && op.id == id && op.change.Some?
  }

  lemma PlaceKeepsTold(b: Book, id: string, at: string, o: SimOrder)
    requires Told(b, id) && at !in b.orders
    ensures Told(Placed(b, at, o), id) && Placed(b, at, o).orders[id] == b.orders[id]
  {
  }

  lemma ChangeKeepsTold(b: Book, id: string, at: string, o: SimOrder)
    requires Told(b, id) && at in b.orders && b.orders[at].Live() && OrderOk(o)
    requires b.orders[at].filled <= o.filled && o.tag == b.orders[at].tag
    ensures var c := Changed(b, at, o);
      Told(c, id) && c.orders[id].quantity == if at == id then o.quantity else b.orders[id].quantity
  {
    AnnounceKeepsTold(b, id, Changed(b, at, o), at);
  }

  lemma NextKeepsTold(b: Book, id: string, op: Op)
    requires Sound(b) && Told(b, id) && Possible(b, op)
    ensures Told(Next(b, op), id)
    ensures !Modifies(op, id) ==> Next(b, op).orders[id].quantity == b.orders[id].quantity
  {
    match op
    case Place(at, tag, key, side, quantity, outcome, steps, due) =>
      PlaceKeepsTold(b, id, at, NewOrder(tag, key, side, quantity, outcome, steps, due));
    case Modify(at, change) =>
      if Modifiable(b, at, change) { ChangeKeepsTold(b, id, at, Modified(b.orders[at], change)); }
    case Cancel(at) =>
      if Cancellable(b, at) { ChangeKeepsTold(b, id, at, Withdrawn(b.orders[at])); }
    case Resolve(market, force) => SweepKeepsTold(b, id, b.ids, 0, market, force);
  }

  lemma {:induction false} NoReports(sent: seq<BrokerOrder>, id: string)
    requires forall m :: 0 <= m < |sent| ==> sent[m].id != id
    ensures Reports(sent, id) == []
  {
    if sent != [] {
      NoReports(sent[..|sent| - 1], id);
    }
  }

  lemma NewOrderIsTold(b: Book, op: Op)
    requires Sound(b) && op.Place? && Possible(b, op)
    ensures Told(Next(b, op), op.id) && Next(b, op).orders[op.id].quantity == op.quantity
  {
    NoReports(b.sent, op.id);
  }

  /** An order announces a well-formed history of the quantity it ends up with, whatever
      happens to it and around it, changes of its quantity included. */
  lemma {:induction false} RunTellsHistory(b: Book, id: string, ops: seq<Op>)
    requires Sound(b) && Told(b, id) && CanRun(b, ops)
    ensures Told(Run(b, ops), id)
    decreases |ops|
  {
    if ops != [] {
      NextKeepsTold(b, id, ops[0]);
      NextIsSound(b, ops[0]);
      RunTellsHistory(Next(b, ops[0]), id, ops[1..]);
    }
  }

  lemma {:induction false} RunKeepsQuantity(b: Book, id: string, ops: seq<Op>)
    requires Sound(b) && Told(b, id) && CanRun(b, ops) && forall n :: 0 <= n < |ops| ==> !Modifies(ops[n], id)
    ensures id in Run(b, ops).orders && Run(b, ops).orders[id].quantity == b.orders[id].quantity
    decreases |ops|
  {
    if ops != [] {
      NextKeepsTold(b, id, ops[0]);
      NextIsSound(b, ops[0]);
      RunKeepsQuantity(Next(b, ops[0]), id, ops[1..]);
    }
  }

  /** Delivering an ended order's announcements, with any loss, repetition and
      reordering that keeps the last one. */
  lemma ToldDelivers(b: Book, id: string, row: OrderUpdates.Row, d: seq<BrokerOrder>)
    requires Sound(b) && Told(b, id) && !b.orders[id].Live()
    requires !row.status.Terminal() && row.filled <= row.quantity
    requires OrderUpdates.DeliveryOf(d, Reports(b.sent, id)) && Snapshot(id, b.orders[id]) in d
    ensures var (o, r) := (b.orders[id], OrderUpdates.Deliver(row, d));
      && (r.status == o.status <==> (o.status.Complete? ==> o.quantity <= row.quantity))
      && (r.status.Complete? ==> r.filled == o.filled && SamePrice(o, r))
  {
    OrderUpdates.DeliveredEndsIff(row, Snapshot(id, b.orders[id]), d);
  }

  /** Exactly when the exchange and the platform end up agreeing on an order, from its
      placing on and whatever else the exchange does: the row gets the order's status
      unless the order completed at more than the row's quantity. */
  lemma PlatformAgreesIff(b: Book, place: Op, ops: seq<Op>, row: OrderUpdates.Row, d: seq<BrokerOrder>)
    requires Sound(b) && place.Place? && Possible(b, place) && CanRun(Next(b, place), ops)
    requires !row.status.Terminal() && row.filled <= row.quantity
    ensures place.id in Run(Next(b, place), ops).orders
    ensures var end := Run(Next(b, place), ops);
      var (o, r) := (end.orders[place.id], OrderUpdates.Deliver(row, d));
      DeliveredInFull(end, place.id, d) ==>
        && (r.status == o.status <==> (o.status.Complete? ==> o.quantity <= row.quantity))
        && (r.status.Complete? ==> r.filled == o.filled && SamePrice(o, r))
  {
    NewOrderIsTold(b, place);
    NextIsSound(b, place);
    RunTellsHistory(Next(b, place), place.id, ops);
    RunIsSound(Next(b, place), ops);
    if DeliveredInFull(Run(Next(b, place), ops), place.id, d) {
      ToldDelivers(Run(Next(b, place), ops), place.id, row, d);
    }
  }

  /** In particular they agree when nobody changes the order's quantity. */
  lemma PlatformAgrees(b: Book, place: Op, ops: seq<Op>, row: OrderUpdates.Row, d: seq<BrokerOrder>)
    requires Sound(b) && place.Place? && Possible(b, place) && CanRun(Next(b, place), ops)
    requires forall op :: op in ops ==> !Modifies(op, place.id)
    requires !row.status.Terminal() && row.filled <= row.quantity == place.quantity
    ensures place.id in Run(Next(b, place), ops).orders
    ensures var end := Run(Next(b, place), ops);
      var (o, r) := (end.orders[place.id], OrderUpdates.Deliver(row, d));
      DeliveredInFull(end, place.id, d) ==>
        r.status == o.status && (o.status.Complete? ==> r.filled == o.filled && SamePrice(o, r))
  {
    NewOrderIsTold(b, place);
    NextIsSound(b, place);
    RunKeepsQuantity(Next(b, place), place.id, ops);
    PlatformAgreesIff(b, place, ops, row, d);
  }

  /** The row has the order's average price, where that is not zero. */
  predicate SamePrice(o: SimOrder, r: OrderUpdates.Row) {
    o.average.Some? && o.average.value != 0.0 ==> r.price == o.average
  }

  /** The order has ended, and `d` delivers its announcements, the last one among them. */
  ghost predicate DeliveredInFull(b: Book, id: string, d: seq<BrokerOrder>)
    requires id in b.orders
  {
    !b.orders[id].Live() && OrderUpdates.DeliveryOf(d, Reports(b.sent, id)) && Snapshot(id, b.orders[id]) in d
  }
}
