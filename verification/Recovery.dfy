// What one pass of the reconciliation engine does to the database, as values.
// Each function on `Core` is one committed unit of work; `Db` adds the
// append-only list of recorded breaks. The broker is an immutable snapshot.

module Recovery {
  import opened Broker

  type Id = nat

  // ---------------------------------------------------------------- the tables

  datatype IntentStatus = IntentPending | SubmittedUnconfirmed | Placed | Confirmed | Failed | Abandoned
  datatype Purpose = Entry | Exit
  datatype Intent = Intent(tradeId: Id, purpose: Purpose, side: Side, quantity: nat, tag: string, status: IntentStatus)

  /** Order rows that exist when the engine starts are `Stored`; the row the
      engine creates for an intent is named after that intent, which fixes the
      surrogate keys up to renaming whatever the order of creation. */
  datatype OrderKey = Stored(id: Id) | Created(intentId: Id)
  datatype OrderRow = OrderRow(
    tradeId: Id, intentId: Option<Id>, purpose: Purpose, side: Side, quantity: nat, filled: nat,
    price: Option<real>, status: OrderStatus, brokerId: Option<string>, tag: Option<string>)

  datatype LegStatus = LegPending | LegOpen | LegClosed | LegUnwound | LegError
  datatype Trade = Trade(
    positionId: Id, symbol: string, status: LegStatus, entryPrice: Option<real>, exitPrice: Option<real>)

  datatype PositionState = Idle | EntryPending | PositionOpen | ExitPending | Closed | Errored {
    predicate Ended() { Closed? || Errored? }
  }
  datatype Reason =
    | DuplicateOrders
    | PartialEntry(filledLegs: nat, legs: nat)
    | PartialExit(openLegs: nat, legs: nat)
    | BrokerFlat(missing: set<string>)
  /** `terms` stands for everything a strategy computes when it finalizes. */
  datatype Position = Position(
    instanceId: Id, state: PositionState, needsReconciliation: bool, message: Option<Reason>, terms: nat)

  datatype InstanceStatus = Active | Frozen | Disabled

  datatype Core = Core(
    intents: map<Id, Intent>, orders: map<OrderKey, OrderRow>, trades: map<Id, Trade>,
    positions: map<Id, Position>, instances: map<Id, InstanceStatus>)

  datatype BreakKind = OrphanFill | BrokerFlatDbOpen | PartialEntryBreak | QuantityMismatch | Other
  datatype Subject = OfIntent(i: Id) | OfTag(tag: string) | OfPosition(p: Id)
  datatype Detail =
    | OrderIds(ids: seq<string>)
    | FilledAgainst(filled: nat, expected: nat)
    | FilledThen(filledBefore: nat, final: OrderStatus)
    | Because(reason: Reason)
    | NoReconciler
  datatype Break = Break(kind: BreakKind, subject: Subject, order: Option<OrderKey>, detail: Detail)

  datatype Db = Db(core: Core, breaks: seq<Break>)

  /** The strategy seam: what completing an entry or an exit writes to its position. */
  datatype Hook = Hook(
    entryTerms: (Position, map<Id, Trade>) -> nat, exitTerms: (Position, map<Id, Trade>) -> nat)

  datatype BrokerPosition = BrokerPosition(symbol: string, quantity: int)
  /** `held` is None when the broker's positions could not be fetched. */
  datatype Env = Env(orders: seq<BrokerOrder>, held: Option<seq<BrokerPosition>>, hook: Option<Hook>)

  // ----------------------------------------------------------- grouping by tag

  function Matches(orders: seq<BrokerOrder>, tag: string): seq<BrokerOrder> {
    if orders == [] then []
    else (if orders[0].tag == tag && tag != "" then [orders[0]] else []) + Matches(orders[1..], tag)
  }

  function OrderIdsOf(orders: seq<BrokerOrder>): seq<string> {
    if orders == [] then [] else [orders[0].id] + OrderIdsOf(orders[1..])
  }

  function TagSet(orders: seq<BrokerOrder>): set<string> {
    set b | b in orders && b.tag != "" :: b.tag
  }

  // ------------------------------------------------------------------- intents

  predicate InDoubtStatus(s: IntentStatus) {
    s.IntentPending? || s.SubmittedUnconfirmed? || s.Placed?
  }

  predicate InDoubt(c: Core, i: Id) {
    i in c.intents && InDoubtStatus(c.intents[i].status)
  }

  /** What the snapshot says about one tag. */
  datatype Verdict =
    | Absent | Duplicated(ids: seq<string>) | Fills(b: BrokerOrder) | Refuses(b: BrokerOrder) | Live(b: BrokerOrder)
  {
    predicate Single() { Fills? || Refuses? || Live? }
  }

  function JudgeOrder(b: BrokerOrder): (v: Verdict)
    ensures v.Single() && v.b == b
  {
    if b.status.Complete? then Fills(b)
    else if b.status.Terminal() then (if b.filled > 0 then Fills(b) else Refuses(b))
    else Live(b)
  }

  function Judge(orders: seq<BrokerOrder>, tag: string): Verdict {
    var ms := Matches(orders, tag);
    if |ms| == 0 then Absent
    else if |ms| > 1 then Duplicated(OrderIdsOf(ms))
    else JudgeOrder(ms[0])
  }

  ghost predicate HasBrokerId(rows: map<OrderKey, OrderRow>, k: OrderKey, id: string) {
    k in rows && rows[k].brokerId == Some(id)
  }

  ghost predicate HasTag(rows: map<OrderKey, OrderRow>, k: OrderKey, tag: string) {
    k in rows && rows[k].tag == Some(tag)
  }

  /** Looking a row up by a tag that two rows carry raises. */
  ghost predicate Ambiguous(rows: map<OrderKey, OrderRow>, tag: string) {
    exists k1, k2 :: k1 != k2 && HasTag(rows, k1, tag) && HasTag(rows, k2, tag)
  }

  /** The row an intent is resolved on: by broker order id, else by tag, else a new one. */
  ghost function RowKey(c: Core, i: Id, b: BrokerOrder): OrderKey
    requires i in c.intents
  {
    if exists k :: HasBrokerId(c.orders, k, b.id) then
      var k :| HasBrokerId(c.orders, k, b.id); k
    else if exists k :: HasTag(c.orders, k, c.intents[i].tag) then
      var k :| HasTag(c.orders, k, c.intents[i].tag); k
    else Created(i)
  }

  function NewRow(i: Id, it: Intent): OrderRow {
    OrderRow(it.tradeId, Some(i), it.purpose, it.side, it.quantity, 0, None, Pending, None, Some(it.tag))
  }

  function Acknowledge(row: OrderRow, b: BrokerOrder): OrderRow {
    if row.brokerId.None? then row.(brokerId := Some(b.id), status := Open) else row
  }

  function FillPrice(row: OrderRow, b: BrokerOrder): real {
    PriceOr(b.price, row.price)
  }

  ghost function AckedRow(c: Core, i: Id, b: BrokerOrder): OrderRow
    requires i in c.intents
  {
    var k := RowKey(c, i, b);
    Acknowledge(if k in c.orders then c.orders[k] else NewRow(i, c.intents[i]), b)
  }

  /** The CHECK constraints a recorded fill must meet. */
  predicate Fits(row: OrderRow, b: BrokerOrder) {
    b.filled <= row.quantity && FillPrice(row, b) >= 0.0
  }

  /** The unit of work for `i` raises: it is rolled back and the pass ends. */
  ghost predicate Raises(c: Core, orders: seq<BrokerOrder>, i: Id) {
    InDoubt(c, i) &&
    var it := c.intents[i];
    var v := Judge(orders, it.tag);
    v.Single() &&
    (|| ((forall k :: !HasBrokerId(c.orders, k, v.b.id)) && Ambiguous(c.orders, it.tag))
     || (v.Fills? && !Fits(AckedRow(c, i, v.b), v.b)))
  }

  function FillLeg(t: Trade, purpose: Purpose, price: real): Trade {
    match purpose
    case Entry => t.(entryPrice := Some(price), status := if t.status.LegPending? then LegOpen else t.status)
    case Exit => t.(exitPrice := Some(price), status := if t.status.LegOpen? then LegClosed else t.status)
  }

  function ErrorPosition(c: Core, p: Id, reason: Reason): Core
    requires p in c.positions
  {
    var pos := c.positions[p];
    c.(positions := c.positions[p := pos.(state := Errored, needsReconciliation := true, message := Some(reason))],
       instances := if pos.instanceId in c.instances then c.instances[pos.instanceId := Frozen] else c.instances)
  }

  function ErrorPositionOfTrade(c: Core, t: Id): Core {
    if t !in c.trades then c
    else
      var p := c.trades[t].positionId;
      if p !in c.positions || c.positions[p].state.Ended() then c
      else ErrorPosition(c, p, DuplicateOrders)
  }

  /** What resolving an intent writes: its status, its order row, and the fill
      price for its leg when there was a fill. */
  datatype Writes = Writes(status: IntentStatus, key: OrderKey, row: Option<OrderRow>, fill: Option<real>)

  ghost function ResolveWrites(c: Core, orders: seq<BrokerOrder>, i: Id): Writes
    requires i in c.intents
  {
    match Judge(orders, c.intents[i].tag)
    case Fills(b) =>
      var row := AckedRow(c, i, b);
      var price := FillPrice(row, b);
      Writes(Confirmed, RowKey(c, i, b),
        Some(row.(status := Complete, filled := b.filled, price := Some(price))), Some(price))
    case Refuses(b) => Writes(Failed, RowKey(c, i, b), Some(AckedRow(c, i, b).(status := Rejected)), None)
    case Live(b) => Writes(c.intents[i].status, RowKey(c, i, b), Some(AckedRow(c, i, b)), None)
    case Absent => Writes(Failed, Created(i), None, None)
    case Duplicated(_) => Writes(c.intents[i].status, Created(i), None, None)
  }

  function Apply(c: Core, i: Id, w: Writes): Core
    requires i in c.intents
  {
    var it := c.intents[i];
    c.(intents := c.intents[i := it.(status := w.status)],
       orders := if w.row.Some? then c.orders[w.key := w.row.value] else c.orders,
       trades := if w.fill.Some? && it.tradeId in c.trades
         then c.trades[it.tradeId := FillLeg(c.trades[it.tradeId], it.purpose, w.fill.value)] else c.trades)
  }

  /** One intent's unit of work. */
  ghost function ReconcileIntent(c: Core, orders: seq<BrokerOrder>, i: Id): Core {
    if !InDoubt(c, i) || Raises(c, orders, i) then c
    else if Judge(orders, c.intents[i].tag).Duplicated? then ErrorPositionOfTrade(c, c.intents[i].tradeId)
    else Apply(c, i, ResolveWrites(c, orders, i))
  }

  ghost function IntentBreaks(c: Core, orders: seq<BrokerOrder>, i: Id): seq<Break> {
    if !InDoubt(c, i) || Raises(c, orders, i) then []
    else
      match Judge(orders, c.intents[i].tag)
      case Duplicated(ids) => [Break(QuantityMismatch, OfIntent(i), None, OrderIds(ids))]
      case Fills(b) =>
        var k := Some(RowKey(c, i, b));
        if !b.status.Complete? then [Break(QuantityMismatch, OfIntent(i), k, FilledThen(b.filled, b.status))]
        else if b.filled != c.intents[i].quantity then
          [Break(QuantityMismatch, OfIntent(i), k, FilledAgainst(b.filled, c.intents[i].quantity))]
        else []
      case _ => []
  }

  // ------------------------------------------------------------------- orphans

  function OrphanBreak(c: Core, orders: seq<BrokerOrder>, tag: string): seq<Break> {
    if exists i :: i in c.intents && c.intents[i].tag == tag then []
    else [Break(OrphanFill, OfTag(tag), None, OrderIds(OrderIdsOf(Matches(orders, tag))))]
  }

  function OrphanBreaks(c: Core, orders: seq<BrokerOrder>, tags: seq<string>): seq<Break> {
    if tags == [] then [] else OrphanBreak(c, orders, tags[0]) + OrphanBreaks(c, orders, tags[1..])
  }

  // ----------------------------------------------------------------- positions

  predicate Unfinished(c: Core, p: Id) {
    p in c.positions &&
    (c.positions[p].state.EntryPending? || c.positions[p].state.PositionOpen? || c.positions[p].state.ExitPending?)
  }

  function Legs(trades: map<Id, Trade>, p: Id): map<Id, Trade> {
    map t | t in trades && trades[t].positionId == p :: trades[t]
  }

  function LegsIn(legs: map<Id, Trade>, status: LegStatus): set<Id> {
    set t | t in legs && legs[t].status == status
  }

  function HeldSymbols(held: seq<BrokerPosition>): set<string> {
    set bp | bp in held && bp.quantity != 0 :: bp.symbol
  }

  function MissingSymbols(legs: map<Id, Trade>, held: seq<BrokerPosition>): set<string> {
    (set t | t in LegsIn(legs, LegOpen) :: legs[t].symbol) - HeldSymbols(held)
  }

  /** What a position needs, decided from its state and its legs. */
  datatype Repair = Nothing | FinalizeEntry | FinalizeExit | AbortEntry | MoveToError(kind: BreakKind, reason: Reason)

  function Diagnose(state: PositionState, legs: map<Id, Trade>, held: Option<seq<BrokerPosition>>): Repair {
    var openLegs, pending, closed := LegsIn(legs, LegOpen), LegsIn(legs, LegPending), LegsIn(legs, LegClosed);
    match state
    case Closed => Nothing
    case Errored => Nothing
    case EntryPending =>
      if openLegs != {} && pending == {} then FinalizeEntry
      else if openLegs == {} then AbortEntry
      else MoveToError(PartialEntryBreak, PartialEntry(|openLegs|, |legs|))
    case ExitPending =>
      if closed != {} && openLegs == {} then FinalizeExit
      else if closed != {} then MoveToError(Other, PartialExit(|openLegs|, |legs|))
      else Nothing
    case _ =>
      if held.None? then Nothing
      else
        var missing := MissingSymbols(legs, held.value);
        if missing != {} then MoveToError(BrokerFlatDbOpen, BrokerFlat(missing)) else Nothing
  }

  function RepairFor(c: Core, env: Env, p: Id): Repair {
    if p in c.positions then Diagnose(c.positions[p].state, Legs(c.trades, p), env.held) else Nothing
  }

  /** The moves that do not freeze anything; a finalization without a hook only flags. */
  function Moved(pos: Position, legs: map<Id, Trade>, r: Repair, hook: Option<Hook>): Position {
    match (r, hook)
    case (AbortEntry, _) => pos.(state := Closed)
    case (FinalizeEntry, Some(h)) => pos.(state := PositionOpen, terms := h.entryTerms(pos, legs))
    case (FinalizeExit, Some(h)) => pos.(state := Closed, terms := h.exitTerms(pos, legs))
    case (_, _) => pos.(needsReconciliation := true)
  }

  /** One position's unit of work. */
  function ReconcilePosition(c: Core, env: Env, p: Id): Core {
    var r := RepairFor(c, env, p);
    if r.Nothing? then c
    else if r.MoveToError? then ErrorPosition(c, p, r.reason)
    else c.(positions := c.positions[p := Moved(c.positions[p], Legs(c.trades, p), r, env.hook)])
  }

  function PositionBreaks(c: Core, env: Env, p: Id): seq<Break> {
    match RepairFor(c, env, p)
    case MoveToError(kind, reason) => [Break(kind, OfPosition(p), None, Because(reason))]
    case FinalizeEntry => if env.hook.None? then [Break(Other, OfPosition(p), None, NoReconciler)] else []
    case FinalizeExit => if env.hook.None? then [Break(Other, OfPosition(p), None, NoReconciler)] else []
    case _ => []
  }

  // --------------------------------------------------------------- a full pass

  /** `raised` means a unit of work failed: what was committed before it stays. */
  datatype Run = Run(db: Db, raised: bool)

  ghost function RunIntents(db: Db, env: Env, scan: seq<Id>): Run
    decreases |scan|
  {
    if scan == [] then Run(db, false)
    else if Raises(db.core, env.orders, scan[0]) then Run(db, true)
    else
      RunIntents(
        Db(ReconcileIntent(db.core, env.orders, scan[0]), db.breaks + IntentBreaks(db.core, env.orders, scan[0])),
        env, scan[1..])
  }

  function RunPositions(db: Db, env: Env, scan: seq<Id>): Db
    decreases |scan|
  {
    if scan == [] then db
    else
      RunPositions(
        Db(ReconcilePosition(db.core, env, scan[0]), db.breaks + PositionBreaks(db.core, env, scan[0])),
        env, scan[1..])
  }

  /** A scan lists exactly the ids a query selects, in whatever order. */
  ghost predicate IntentScan(c: Core, scan: seq<Id>) {
    forall i :: i in scan <==> InDoubt(c, i)
  }

  ghost predicate PositionScan(c: Core, scan: seq<Id>) {
    forall p :: p in scan <==> Unfinished(c, p)
  }

  ghost predicate TagScan(env: Env, tags: seq<string>) {
    forall t :: t in tags <==> t in TagSet(env.orders)
  }

  /** The whole pass: intents, orphan tags, positions. `positions` scans what
      the first two phases left behind. */
  ghost function Reconcile(db: Db, env: Env, intents: seq<Id>, tags: seq<string>, positions: seq<Id>): Run {
    var afterIntents := RunIntents(db, env, intents);
    if afterIntents.raised then afterIntents
    else
      var mid := afterIntents.db;
      Run(RunPositions(Db(mid.core, mid.breaks + OrphanBreaks(mid.core, env.orders, tags)), env, positions), false)
  }
}
