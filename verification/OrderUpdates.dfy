// Applying broker order snapshots to one order row: the shared decision, what any
// lossy, duplicated, reordered delivery of snapshots leads to, and why racing
// push and poll transactions behave like a serial order of the ones that won.

module OrderUpdates {
  import opened Broker
  import opened Confluence

  datatype Row = Row(
    status: OrderStatus, quantity: nat, filled: nat, price: Option<real>, brokerId: Option<string>, tag: Option<string>)

  datatype UpdateOutcome =
    | AppliedFill | AppliedPartialFill | AppliedRejection | AppliedCancellation
    | NoChange | AlreadyTerminal | NotFound | Conflict
  {
    predicate Ends() {
      AppliedFill? || AppliedRejection? || AppliedCancellation?
    }
  }

  function Learn(row: Row, bo: BrokerOrder): Row {
    if row.brokerId.None? && bo.id != "" then row.(brokerId := Some(bo.id)) else row
  }

  /** The status and fill a snapshot gives a row that is not yet terminal. */
  function Advance(row: Row, bo: BrokerOrder): (Row, UpdateOutcome) {
    match bo.status
    case Complete =>
      (row.(status := Complete, filled := bo.filled, price := Some(PriceOr(bo.price, None))), AppliedFill)
    case Rejected => (row.(status := Rejected), AppliedRejection)
    case Error => (row.(status := Rejected), AppliedRejection)
    case Cancelled => (row.(status := Cancelled), AppliedCancellation)
    case _ =>
      if bo.filled > row.filled then
        (row.(status := Open, filled := bo.filled, price := Some(PriceOr(bo.price, row.price))), AppliedPartialFill)
      else (row, NoChange)
  }

  /** What one transaction decides for a row, including the refusal by the CHECK
      constraint on `filled`: a refused write rolls the whole transaction back. */
  function Decide(row: Row, bo: BrokerOrder): (Row, UpdateOutcome) {
    if row.status.Terminal() then (row, AlreadyTerminal)
    else
      var (next, outcome) := Advance(Learn(row, bo), bo);
      if next.filled > next.quantity then (row, Conflict) else (next, outcome)
  }

  // ---------------------------------------------------------- delivered updates

  function Deliver(row: Row, updates: seq<BrokerOrder>): Row
    decreases |updates|
  {
    if updates == [] then row else Deliver(Decide(row, updates[0]).0, updates[1..])
  }

  function MaxFill(start: nat, updates: seq<BrokerOrder>): nat
    decreases |updates|
  {
    if updates == [] then start
    else MaxFill(if updates[0].filled > start then updates[0].filled else start, updates[1..])
  }

  /** Snapshots of one broker order: live ones with growing fills, at most one
      terminal one at the end, and COMPLETE means filled in full. */
  ghost predicate History(h: seq<BrokerOrder>, quantity: nat) {
    && (forall m :: 0 <= m < |h| ==> h[m].filled <= quantity)
    && (forall m, n :: 0 <= m <= n < |h| ==> h[m].filled <= h[n].filled && h[m].id == h[n].id)
    && (forall m :: 0 <= m < |h| - 1 ==> !h[m].status.Terminal())
    && (forall m :: 0 <= m < |h| && h[m].status.Complete? ==> h[m].filled == quantity)
  }

  /** A delivery may lose, repeat and reorder what the broker sent. */
  ghost predicate DeliveryOf(d: seq<BrokerOrder>, h: seq<BrokerOrder>) {
    forall u :: u in d ==> u in h
  }

  lemma {:induction false} TerminalStays(row: Row, d: seq<BrokerOrder>)
    requires row.status.Terminal()
    ensures Deliver(row, d) == row
  {
    if d != [] {
      TerminalStays(row, d[1..]);
    }
  }

  /** Live snapshots move a live row to the largest fill seen. */
  lemma {:induction false} LiveUpdates(row: Row, d: seq<BrokerOrder>)
    requires !row.status.Terminal() && row.filled <= row.quantity
    requires forall u :: u in d ==> !u.status.Terminal() && u.filled <= row.quantity
    ensures var r := Deliver(row, d);
      !r.status.Terminal() && r.filled == MaxFill(row.filled, d) <= r.quantity == row.quantity
    decreases d
  {
    if d != [] {
      assert d[0] in d;
      LiveUpdates(Decide(row, d[0]).0, d[1..]);
    }
  }

  lemma {:induction false} DeliverConcat(row: Row, a: seq<BrokerOrder>, b: seq<BrokerOrder>)
    ensures Deliver(row, a + b) == Deliver(Deliver(row, a), b)
    decreases a
  {
    if a == [] {
      assert a + b == b;
    } else {
      assert (a + b)[0] == a[0] && (a + b)[1..] == a[1..] + b;
      DeliverConcat(Decide(row, a[0]).0, a[1..], b);
    }
  }

  /** The outcome of a delivery that includes the terminal snapshot: the row's status
      is fixed by the history alone; the fill is the quantity for COMPLETE, at the
      broker's price, and otherwise the largest that arrived before the terminal snapshot. */
  lemma DeliveryOutcome(row: Row, h: seq<BrokerOrder>, before: seq<BrokerOrder>, after: seq<BrokerOrder>)
    requires !row.status.Terminal() && row.filled <= row.quantity
    requires History(h, row.quantity) && h != [] && h[|h| - 1].status.Terminal()
    requires DeliveryOf(before + [h[|h| - 1]] + after, h)
    requires forall u :: u in before ==> !u.status.Terminal()
    ensures var last := h[|h| - 1]; var r := Deliver(row, before + [last] + after);
      && r.status == (if last.status.Error? then Rejected else last.status)
      && r.filled == (if last.status.Complete? then row.quantity else MaxFill(row.filled, before))
      && r.filled >= row.filled && r.quantity == row.quantity
      && (last.status.Complete? && last.price.Some? && last.price.value != 0.0 ==> r.price == last.price)
      && forall more :: Deliver(r, more) == r
  {
    var last := h[|h| - 1];
    forall u | u in before ensures u.filled <= row.quantity {
      assert u in before + [last] + after;
    }
    LiveUpdates(row, before);
    var live := Deliver(row, before);
    var done := Decide(live, last).0;
    DeliverConcat(row, before, [last] + after);
    assert before + [last] + after == before + ([last] + after);
    assert ([last] + after)[1..] == after;
    TerminalStays(done, after);
    MaxFillGrows(row.filled, before);
    forall more ensures Deliver(done, more) == done { TerminalStays(done, more); }
  }

  lemma {:induction false} MaxFillGrows(start: nat, d: seq<BrokerOrder>)
    ensures MaxFill(start, d) >= start
    decreases |d|
  {
    if d != [] {
      MaxFillGrows(if d[0].filled > start then d[0].filled else start, d[1..]);
    }
  }

  /** Every delivery that includes the terminal snapshot splits at its first copy. */
  lemma {:induction false} FirstTerminal(
      d: seq<BrokerOrder>, last: BrokerOrder) returns (before: seq<BrokerOrder>, after: seq<BrokerOrder>)
    requires last in d && last.status.Terminal()
    requires forall u :: u in d && u.status.Terminal() ==> u == last
    ensures d == before + [last] + after
    ensures forall u :: u in before ==> !u.status.Terminal()
  {
    if d[0] == last {
      before, after := [], d[1..];
    } else {
      before, after := FirstTerminal(d[1..], last);
      before := [d[0]] + before;
    }
  }

  lemma {:induction false} RefusedForever(row: Row, last: BrokerOrder, d: seq<BrokerOrder>)
    requires !row.status.Terminal() && last.status.Complete? && last.filled > row.quantity
    requires forall u :: u in d && u.status.Terminal() ==> u == last
    ensures !Deliver(row, d).status.Terminal()
    decreases d
  {
    if d != [] {
      assert d[0] in d;
      RefusedForever(Decide(row, d[0]).0, last, d[1..]);
    }
  }

  /** Live snapshots, too large a fill included, leave a live row live. */
  lemma {:induction false} LiveStaysLive(row: Row, d: seq<BrokerOrder>)
    requires !row.status.Terminal() && row.filled <= row.quantity
    requires forall u :: u in d ==> !u.status.Terminal()
    ensures var r := Deliver(row, d); !r.status.Terminal() && r.filled <= r.quantity == row.quantity
    decreases d
  {
    if d != [] {
      assert d[0] in d;
      LiveStaysLive(Decide(row, d[0]).0, d[1..]);
    }
  }

  predicate Priced(u: BrokerOrder) {
    u.price.Some? && u.price.value != 0.0
  }

  /** A terminal snapshot that arrives ends the row, with its status, exactly when it is
      not a COMPLETE one of more than the row's quantity; whatever else arrives. */
  lemma DeliveredEndsIff(row: Row, last: BrokerOrder, d: seq<BrokerOrder>)
    requires !row.status.Terminal() && row.filled <= row.quantity
    requires last in d && last.status.Terminal() && forall u :: u in d && u.status.Terminal() ==> u == last
    ensures var r := Deliver(row, d);
      && (r.status.Terminal() <==> (last.status.Complete? ==> last.filled <= row.quantity))
      && (r.status.Terminal() ==>
            && r.status == (if last.status.Error? then Rejected else last.status)
            && (last.status.Complete? ==> r.filled == last.filled && (Priced(last) ==> r.price == last.price)))
  {
    if last.status.Complete? && last.filled > row.quantity {
      RefusedForever(row, last, d);
    } else {
      var before, after := FirstTerminal(d, last);
      EndsAt(row, before, last, after);
    }
  }

  lemma EndsAt(row: Row, before: seq<BrokerOrder>, last: BrokerOrder, after: seq<BrokerOrder>)
    requires !row.status.Terminal() && row.filled <= row.quantity && last.status.Terminal()
    requires (last.status.Complete? ==> last.filled <= row.quantity) && forall u :: u in before ==> !u.status.Terminal()
    ensures var r := Deliver(row, before + [last] + after);
      && r.status.Terminal() && r.status == (if last.status.Error? then Rejected else last.status)
      && (last.status.Complete? ==> r.filled == last.filled && (Priced(last) ==> r.price == last.price))
  {
    LiveStaysLive(row, before);
    DeliverConcat(row, before, [last] + after);
    assert before + [last] + after == before + ([last] + after) && ([last] + after)[1..] == after;
    TerminalStays(Decide(Deliver(row, before), last).0, after);
  }

  /** Confluence: two deliveries of one history, each including the terminal
      snapshot, leave the same status, and the same fill when it is COMPLETE. */
  lemma DeliveriesAgree(row: Row, h: seq<BrokerOrder>, d1: seq<BrokerOrder>, d2: seq<BrokerOrder>)
    requires !row.status.Terminal() && row.filled <= row.quantity
    requires History(h, row.quantity) && h != [] && h[|h| - 1].status.Terminal()
    requires DeliveryOf(d1, h) && DeliveryOf(d2, h) && h[|h| - 1] in d1 && h[|h| - 1] in d2
    ensures var r1, r2 := Deliver(row, d1), Deliver(row, d2);
      r1.status == r2.status && (r1.status.Complete? ==> r1.filled == r2.filled == row.quantity)
  {
    var last := h[|h| - 1];
    var b1, a1 := FirstTerminal(d1, last);
    var b2, a2 := FirstTerminal(d2, last);
    DeliveryOutcome(row, h, b1, a1);
    DeliveryOutcome(row, h, b2, a2);
  }

  /** A cancellation's own fill is not recorded: the row ends with the broker's
      final fill iff a live snapshot, or the row itself, already had it. */
  lemma CancelledFillKeptIff(row: Row, h: seq<BrokerOrder>, before: seq<BrokerOrder>, after: seq<BrokerOrder>)
    requires !row.status.Terminal() && row.filled <= row.quantity
    requires History(h, row.quantity) && h != [] && h[|h| - 1].status.Terminal() && !h[|h| - 1].status.Complete?
    requires DeliveryOf(before + [h[|h| - 1]] + after, h) && row.filled <= h[|h| - 1].filled
    requires forall u :: u in before ==> !u.status.Terminal()
    ensures Deliver(row, before + [h[|h| - 1]] + after).filled == h[|h| - 1].filled
      <==> row.filled == h[|h| - 1].filled || exists u :: u in before && u.filled == h[|h| - 1].filled
  {
    var last := h[|h| - 1];
    DeliveryOutcome(row, h, before, after);
    forall u | u in before ensures u.filled <= last.filled {
      assert u in before + [last] + after;
    }
    MaxFillReached(row.filled, before, last.filled);
  }

  lemma {:induction false} MaxFillReached(start: nat, d: seq<BrokerOrder>, top: nat)
    requires start <= top && forall u :: u in d ==> u.filled <= top
    ensures MaxFill(start, d) == top <==> start == top || exists u :: u in d && u.filled == top
    decreases d
  {
    if d != [] {
      assert d[0] in d && d == [d[0]] + d[1..];
      MaxFillReached(if d[0].filled > start then d[0].filled else start, d[1..], top);
    }
  }

  /** A fill lost: the order was half filled when it was cancelled, and no live
      snapshot said so. */
  lemma CancelledFillDropped()
    ensures var row := Row(Open, 10, 0, None, Some("b"), Some("t"));
      var last := BrokerOrder("b", "t", Cancelled, 10, 5, Some(1.0));
      History([last], 10) && Deliver(row, [last]) == row.(status := Cancelled)
  {
    var last := BrokerOrder("b", "t", Cancelled, 10, 5, Some(1.0));
    assert [last][1..] == [];
  }

  /** A fill lowered: a COMPLETE snapshot below what the row had. */
  lemma CompleteLowersFill()
    ensures var row := Row(Open, 10, 7, None, Some("b"), Some("t"));
      Decide(row, BrokerOrder("b", "t", Complete, 10, 4, None)).0.filled == 4
  {
  }

  /** The row regresses in exactly one situation: a COMPLETE snapshot whose fill is
      below what a live row already recorded. */
  lemma LowersFillIff(row: Row, bo: BrokerOrder)
    requires row.filled <= row.quantity
    ensures Decide(row, bo).0.filled < row.filled
      <==> !row.status.Terminal() && bo.status.Complete? && bo.filled < row.filled
  {
  }

  // -------------------------------------------------------- racing transactions

  type Tid = nat

  /** One row under optimistic versions. `loads` holds what each running
      transaction saw; `done` how each finished one ended. */
  datatype Table = Table(row: Row, version: nat, loads: map<Tid, Seen>, done: map<Tid, UpdateOutcome>)
  datatype Seen = Seen(row: Row, version: nat)

  /** A transaction, push or poll, loads the row, then decides and commits. */
  datatype Event = Load(t: Tid) | Commit(t: Tid)

  predicate Enabled(s: Table, e: Event) {
    match e
    case Load(t) => t !in s.loads
    case Commit(t) => t in s.loads && t !in s.done
  }

  /** A commit with nothing to write always succeeds; a write succeeds only on the
      version it read, and otherwise is rolled back and reported as a conflict. */
  function Step(s: Table, updates: Tid -> BrokerOrder, e: Event): Table
    requires Enabled(s, e)
  {
    match e
    case Load(t) => s.(loads := s.loads[t := Seen(s.row, s.version)])
    case Commit(t) =>
      var seen := s.loads[t];
      var (next, outcome) := Decide(seen.row, updates(t));
      if next == seen.row then s.(done := s.done[t := outcome])
      else if seen.version == s.version then
        s.(row := next, version := s.version + 1, done := s.done[t := outcome])
      else s.(done := s.done[t := Conflict])
  }

  ghost predicate Runs(s: Table, updates: Tid -> BrokerOrder, es: seq<Event>)
    decreases |es|
  {
    es != [] ==> Enabled(s, es[0]) && Runs(Step(s, updates, es[0]), updates, es[1..])
  }

  ghost function RunAll(s: Table, updates: Tid -> BrokerOrder, es: seq<Event>): Table
    requires Runs(s, updates, es)
    decreases |es|
  {
    if es == [] then s else RunAll(Step(s, updates, es[0]), updates, es[1..])
  }

  /** Running `order` one after the other takes `row` to `final`, and every
      transaction decides in it what `done` says it decided. */
  ghost predicate Explains(
      row: Row, updates: Tid -> BrokerOrder, order: seq<Tid>, done: map<Tid, UpdateOutcome>, final: Row)
    decreases |order|
  {
    if order == [] then row == final
    else
      var (next, outcome) := Decide(row, updates(order[0]));
      order[0] in done && done[order[0]] == outcome && Explains(next, updates, order[1..], done, final)
  }

  lemma {:induction false} ExplainsConcat(
      row: Row, updates: Tid -> BrokerOrder, a: seq<Tid>, mid: Row, b: seq<Tid>, done: map<Tid, UpdateOutcome>,
      final: Row)
    requires Explains(row, updates, a, done, mid) && Explains(mid, updates, b, done, final)
    ensures Explains(row, updates, a + b, done, final)
    decreases a
  {
    if a == [] {
      assert a + b == b;
    } else {
      assert (a + b)[0] == a[0] && (a + b)[1..] == a[1..] + b;
      ExplainsConcat(Decide(row, updates(a[0])).0, updates, a[1..], mid, b, done, final);
    }
  }

  /** The proof's bookkeeping: every committed row, and for each of them the
      transactions that read it and kept their result, its writer last. */
  datatype Audit = Audit(rows: seq<Row>, groups: seq<seq<Tid>>)

  ghost predicate Idle(row: Row, updates: Tid -> BrokerOrder, group: seq<Tid>, done: map<Tid, UpdateOutcome>) {
    forall t :: t in group ==> t in done && Decide(row, updates(t)) == (row, done[t])
  }

  ghost predicate Audited(s: Table, updates: Tid -> BrokerOrder, a: Audit) {
    && |a.rows| == |a.groups| == s.version + 1 && a.rows[s.version] == s.row
    && LoadsKnown(s, a.rows) && KeptGrouped(s, a.groups)
    && Chained(a.rows, a.groups, updates, s.done)
    && Idle(s.row, updates, a.groups[s.version], s.done)
  }

  ghost predicate LoadsKnown(s: Table, rows: seq<Row>) {
    && (forall t :: t in s.loads ==> s.loads[t].version < |rows| && s.loads[t].row == rows[s.loads[t].version])
    && (forall t :: t in s.done ==> t in s.loads)
  }

  ghost predicate KeptGrouped(s: Table, groups: seq<seq<Tid>>) {
    && (forall v, t :: 0 <= v < |groups| && t in groups[v] ==>
          t in s.done && s.done[t] != Conflict && t in s.loads && s.loads[t].version == v)
    && (forall v :: 0 <= v < |groups| ==> Distinct(groups[v]))
    && (forall t :: t in s.done && s.done[t] != Conflict ==>
          t in s.loads && s.loads[t].version < |groups| && t in groups[s.loads[t].version])
  }

  ghost predicate Chained(
      rows: seq<Row>, groups: seq<seq<Tid>>, updates: Tid -> BrokerOrder, done: map<Tid, UpdateOutcome>) {
    && |rows| == |groups|
    && forall v :: 0 <= v < |rows| - 1 ==> WrittenGroup(rows[v], rows[v + 1], updates, groups[v], done)
  }

  ghost predicate WrittenGroup(
      row: Row, next: Row, updates: Tid -> BrokerOrder, group: seq<Tid>, done: map<Tid, UpdateOutcome>) {
    && group != [] && Idle(row, updates, group[..|group| - 1], done)
    && var w := group[|group| - 1]; w in done && Decide(row, updates(w)) == (next, done[w]) && next != row
  }

  /** The audit after one event: a kept result joins the group of the row it read,
      and a successful write opens the group of the row it committed. */
  ghost function AuditStep(s: Table, a: Audit, updates: Tid -> BrokerOrder, e: Event): Audit
    requires Enabled(s, e) && Audited(s, updates, a)
  {
    match e
    case Load(_) => a
    case Commit(t) =>
      var seen, next := s.loads[t], Step(s, updates, e);
      if next.done[t].Conflict? then a
      else if next.version == s.version then
        var group := a.groups[seen.version];
        a.(groups := a.groups[seen.version := [t] + group])
      else Audit(a.rows + [next.row], a.groups[seen.version := a.groups[seen.version] + [t]] + [[]])
  }

  ghost predicate Extends(done: map<Tid, UpdateOutcome>, more: map<Tid, UpdateOutcome>) {
    forall t :: t in done ==> t in more && more[t] == done[t]
  }

  lemma GroupKept(
      row: Row, next: Row, updates: Tid -> BrokerOrder, group: seq<Tid>, done: map<Tid, UpdateOutcome>,
      more: map<Tid, UpdateOutcome>)
    requires WrittenGroup(row, next, updates, group, done) && Extends(done, more)
    ensures WrittenGroup(row, next, updates, group, more)
  {
    forall t | t in group[..|group| - 1] ensures t in more && more[t] == done[t] {
      assert t in done;
    }
  }

  lemma ReaderKept(
      row: Row, next: Row, updates: Tid -> BrokerOrder, group: seq<Tid>, t: Tid, done: map<Tid, UpdateOutcome>)
    requires WrittenGroup(row, next, updates, group, done)
    requires t in done && Decide(row, updates(t)) == (row, done[t])
    ensures WrittenGroup(row, next, updates, [t] + group, done)
  {
    var n := |group|;
    assert ([t] + group)[..n] == [t] + group[..n - 1];
    assert ([t] + group)[n] == group[n - 1];
  }

  lemma WriterCloses(
      row: Row, next: Row, updates: Tid -> BrokerOrder, group: seq<Tid>, t: Tid, done: map<Tid, UpdateOutcome>,
      more: map<Tid, UpdateOutcome>)
    requires Idle(row, updates, group, done) && Extends(done, more)
    requires t in more && Decide(row, updates(t)) == (next, more[t]) && next != row
    ensures WrittenGroup(row, next, updates, group + [t], more)
  {
    assert (group + [t])[..|group|] == group;
    forall u | u in group ensures u in more && more[u] == done[u] { assert u in done; }
  }

  lemma ChainKept(s: Table, a: Audit, updates: Tid -> BrokerOrder, t: Tid)
    requires Enabled(s, Commit(t)) && Audited(s, updates, a)
    ensures var d, b := Step(s, updates, Commit(t)), AuditStep(s, a, updates, Commit(t));
      Chained(b.rows, b.groups, updates, d.done) && |b.rows| == d.version + 1
  {
    var d, b := Step(s, updates, Commit(t)), AuditStep(s, a, updates, Commit(t));
    assert Extends(s.done, d.done);
    forall v | 0 <= v < d.version ensures WrittenGroup(b.rows[v], b.rows[v + 1], updates, b.groups[v], d.done) {
      if v < s.version {
        GroupKept(a.rows[v], a.rows[v + 1], updates, a.groups[v], s.done, d.done);
        if b.groups[v] != a.groups[v] {
          ReaderKept(a.rows[v], a.rows[v + 1], updates, a.groups[v], t, d.done);
        }
      } else {
        WriterCloses(s.row, d.row, updates, a.groups[v], t, s.done, d.done);
      }
    }
  }

  /** Transaction `t` finishes with a result it keeps and joins the group it read. */
  lemma OneMoreDistinct(group: seq<Tid>, t: Tid)
    requires Distinct(group) && t !in group
    ensures Distinct([t] + group) && Distinct(group + [t])
    ensures forall x :: x in [t] + group <==> x == t || x in group
    ensures forall x :: x in group + [t] <==> x == t || x in group
  {
  }

  lemma JoinKept(s: Table, d: Table, groups: seq<seq<Tid>>, t: Tid, v: nat, group: seq<Tid>)
    requires KeptGrouped(s, groups) && t in s.loads && t !in s.done && s.loads[t].version == v < |groups|
    requires d.loads == s.loads && t in d.done && d.done == s.done[t := d.done[t]] && d.done[t] != Conflict
    requires group == [t] + groups[v] || group == groups[v] + [t]
    ensures KeptGrouped(d, groups[v := group])
  {
    var joined := groups[v := group];
    OneMoreDistinct(groups[v], t);
    forall w, x | 0 <= w < |joined| && x in joined[w]
      ensures x in d.done && d.done[x] != Conflict && x in d.loads && d.loads[x].version == w
    {
      assert x == t || x in groups[w];
    }
    forall x | x in d.done && d.done[x] != Conflict
      ensures x in d.loads && d.loads[x].version < |joined| && x in joined[d.loads[x].version]
    {
      assert x == t || x in s.done;
    }
  }

  lemma EmptyGroupKept(s: Table, d: Table, groups: seq<seq<Tid>>)
    requires KeptGrouped(s, groups) && d.loads == s.loads && d.done == s.done
    ensures KeptGrouped(d, groups + [[]])
  {
    var more := groups + [[]];
    forall w, x | 0 <= w < |more| && x in more[w]
      ensures x in d.done && d.done[x] != Conflict && x in d.loads && d.loads[x].version == w
    {
      assert w < |groups| && x in groups[w];
    }
    forall w | 0 <= w < |more| ensures Distinct(more[w]) {
      assert w < |groups| ==> Distinct(groups[w]);
    }
  }

  lemma ConflictKept(s: Table, d: Table, groups: seq<seq<Tid>>, t: Tid)
    requires KeptGrouped(s, groups) && t !in s.done && d.loads == s.loads && d.done == s.done[t := Conflict]
    ensures KeptGrouped(d, groups)
  {
  }

  lemma GroupsKept(s: Table, a: Audit, updates: Tid -> BrokerOrder, t: Tid)
    requires Enabled(s, Commit(t)) && Audited(s, updates, a)
    ensures var d, b := Step(s, updates, Commit(t)), AuditStep(s, a, updates, Commit(t));
      KeptGrouped(d, b.groups) && LoadsKnown(d, b.rows)
  {
    var d, b := Step(s, updates, Commit(t)), AuditStep(s, a, updates, Commit(t));
    var v := s.loads[t].version;
    if d.done[t].Conflict? {
      ConflictKept(s, d, a.groups, t);
    } else if d.version == s.version {
      JoinKept(s, d, a.groups, t, v, [t] + a.groups[v]);
    } else {
      JoinKept(s, d, a.groups, t, v, a.groups[v] + [t]);
      EmptyGroupKept(d, d, a.groups[v := a.groups[v] + [t]]);
    }
  }

  lemma LoadKept(s: Table, a: Audit, updates: Tid -> BrokerOrder, t: Tid)
    requires Enabled(s, Load(t)) && Audited(s, updates, a)
    ensures Audited(Step(s, updates, Load(t)), updates, a)
  {
    var d := Step(s, updates, Load(t));
    assert KeptGrouped(d, a.groups) by {
      forall w, x | 0 <= w < |a.groups| && x in a.groups[w]
        ensures x in d.done && d.done[x] != Conflict && x in d.loads && d.loads[x].version == w
      {
        assert x in s.loads;
      }
    }
  }

  lemma CurrentIdle(s: Table, a: Audit, updates: Tid -> BrokerOrder, t: Tid)
    requires Enabled(s, Commit(t)) && Audited(s, updates, a)
    ensures var d, b := Step(s, updates, Commit(t)), AuditStep(s, a, updates, Commit(t));
      && |b.groups| == |b.rows| == d.version + 1 && b.rows[d.version] == d.row
      && Idle(d.row, updates, b.groups[d.version], d.done)
  {
    assert t !in a.groups[s.version];
  }

  lemma AuditKept(s: Table, a: Audit, updates: Tid -> BrokerOrder, e: Event)
    requires Enabled(s, e) && Audited(s, updates, a)
    ensures Audited(Step(s, updates, e), updates, AuditStep(s, a, updates, e))
  {
    match e
    case Load(t) => LoadKept(s, a, updates, t);
    case Commit(t) =>
      ChainKept(s, a, updates, t);
      GroupsKept(s, a, updates, t);
      CurrentIdle(s, a, updates, t);
  }

  lemma {:induction false} RunAudited(
      s: Table, a: Audit, updates: Tid -> BrokerOrder, es: seq<Event>) returns (b: Audit)
    requires Runs(s, updates, es) && Audited(s, updates, a)
    ensures Audited(RunAll(s, updates, es), updates, b) && a.rows <= b.rows
    decreases |es|
  {
    if es == [] {
      b := a;
    } else {
      AuditKept(s, a, updates, es[0]);
      b := RunAudited(Step(s, updates, es[0]), AuditStep(s, a, updates, es[0]), updates, es[1..]);
    }
  }

  // ------------------------------------------------------------ the serial order

  ghost function Flatten(groups: seq<seq<Tid>>): seq<Tid> {
    if groups == [] then [] else Flatten(groups[..|groups| - 1]) + groups[|groups| - 1]
  }

  lemma {:induction false} FlattenMembers(groups: seq<seq<Tid>>, t: Tid)
    ensures t in Flatten(groups) <==> exists v :: 0 <= v < |groups| && t in groups[v]
  {
    if groups != [] {
      var n := |groups| - 1;
      FlattenMembers(groups[..n], t);
      if v :| 0 <= v < n && t in groups[v] { assert t in groups[..n][v]; }
    }
  }

  lemma {:induction false} FlattenDistinct(groups: seq<seq<Tid>>)
    requires forall v :: 0 <= v < |groups| ==> Distinct(groups[v])
    requires forall v, w, t :: 0 <= v < |groups| && 0 <= w < |groups| && t in groups[v] && t in groups[w] ==> v == w
    ensures Distinct(Flatten(groups))
  {
    if groups != [] {
      var n := |groups| - 1;
      FlattenDistinct(groups[..n]);
      var front, last := Flatten(groups[..n]), groups[n];
      forall k, l | 0 <= k < l < |front + last| ensures (front + last)[k] != (front + last)[l] {
        if k < |front| <= l {
          FlattenMembers(groups[..n], front[k]);
          assert front[k] in front && last[l - |front|] in last;
        }
      }
    }
  }

  lemma {:induction false} IdleExplains(
      row: Row, updates: Tid -> BrokerOrder, group: seq<Tid>, done: map<Tid, UpdateOutcome>)
    requires Idle(row, updates, group, done)
    ensures Explains(row, updates, group, done, row)
  {
    if group != [] {
      assert group[0] in group;
      IdleExplains(row, updates, group[1..], done);
    }
  }

  lemma WrittenGroupExplains(
      row: Row, next: Row, updates: Tid -> BrokerOrder, group: seq<Tid>, done: map<Tid, UpdateOutcome>)
    requires WrittenGroup(row, next, updates, group, done)
    ensures Explains(row, updates, group, done, next)
  {
    var readers, w := group[..|group| - 1], group[|group| - 1];
    IdleExplains(row, updates, readers, done);
    assert Explains(next, updates, [w][1..], done, next);
    ExplainsConcat(row, updates, readers, row, [w], done, next);
    assert readers + [w] == group;
  }

  lemma {:induction false} ChainExplains(
      rows: seq<Row>, groups: seq<seq<Tid>>, updates: Tid -> BrokerOrder, done: map<Tid, UpdateOutcome>, v: nat)
    requires Chained(rows, groups, updates, done) && v < |rows|
    ensures Explains(rows[0], updates, Flatten(groups[..v]), done, rows[v])
    decreases v
  {
    if v > 0 {
      var u := v - 1;
      ChainExplains(rows, groups, updates, done, u);
      assert groups[..v][..u] == groups[..u];
      WrittenGroupExplains(rows[u], rows[v], updates, groups[u], done);
      ExplainsConcat(rows[0], updates, Flatten(groups[..u]), rows[u], groups[u], done, rows[v]);
    }
  }

  lemma AuditExplains(s: Table, a: Audit, updates: Tid -> BrokerOrder)
    requires Audited(s, updates, a)
    ensures Explains(a.rows[0], updates, Flatten(a.groups), s.done, s.row)
  {
    var n := s.version;
    ChainExplains(a.rows, a.groups, updates, s.done, n);
    IdleExplains(s.row, updates, a.groups[n], s.done);
    ExplainsConcat(a.rows[0], updates, Flatten(a.groups[..n]), s.row, a.groups[n], s.done, s.row);
  }

  lemma GroupsList(s: Table, groups: seq<seq<Tid>>)
    requires KeptGrouped(s, groups)
    ensures Distinct(Flatten(groups))
    ensures forall t :: t in Flatten(groups) <==> t in s.done && s.done[t] != Conflict
  {
    forall v, w, t | 0 <= v < |groups| && 0 <= w < |groups| && t in groups[v] && t in groups[w] ensures v == w {
      assert s.loads[t].version == v;
    }
    FlattenDistinct(groups);
    forall t ensures t in Flatten(groups) <==> t in s.done && s.done[t] != Conflict {
      FlattenMembers(groups, t);
    }
  }

  /** A serial order of exactly the transactions that kept their result. */
  ghost predicate SerialOrder(start: Row, s: Table, updates: Tid -> BrokerOrder, order: seq<Tid>) {
    && Distinct(order) && Explains(start, updates, order, s.done, s.row)
    && forall t :: t in order <==> t in s.done && s.done[t] != Conflict
  }

  /** Any interleaving of push and poll transactions, each deciding on a possibly
      stale read, commits what some serial order of the winners commits, with every
      winner deciding what it decided; losers leave no trace. */
  lemma Serialisable(start: Row, updates: Tid -> BrokerOrder, es: seq<Event>) returns (order: seq<Tid>)
    requires Runs(Table(start, 0, map[], map[]), updates, es)
    ensures SerialOrder(start, RunAll(Table(start, 0, map[], map[]), updates, es), updates, order)
  {
    var s0 := Table(start, 0, map[], map[]);
    var a := RunAudited(s0, Audit([start], [[]]), updates, es);
    var s := RunAll(s0, updates, es);
    assert a.rows[0] == start;
    AuditExplains(s, a, updates);
    order := Flatten(a.groups);
    GroupsList(s, a.groups);
  }

  lemma {:induction false} AfterTheEnd(
      row: Row, updates: Tid -> BrokerOrder, order: seq<Tid>, done: map<Tid, UpdateOutcome>, final: Row, t: Tid)
    requires Explains(row, updates, order, done, final) && row.status.Terminal() && t in order
    ensures t in done && done[t].AlreadyTerminal?
    decreases |order|
  {
    if order[0] != t {
      AfterTheEnd(row, updates, order[1..], done, final, t);
    }
  }

  lemma {:induction false} OneEnds(
      row: Row, updates: Tid -> BrokerOrder, order: seq<Tid>, done: map<Tid, UpdateOutcome>, final: Row, t: Tid, u: Tid)
    requires Explains(row, updates, order, done, final)
    requires t in order && u in order && t in done && u in done && done[t].Ends() && done[u].Ends()
    ensures t == u && final.status.Terminal()
    decreases |order|
  {
    var next := Decide(row, updates(order[0])).0;
    if order[0] == t || order[0] == u {
      assert next.status.Terminal();
      if t != u {
        var other := if order[0] == t then u else t;
        AfterTheEnd(next, updates, order[1..], done, final, other);
      }
      EndStays(next, updates, order[1..], done, final);
    } else {
      OneEnds(next, updates, order[1..], done, final, t, u);
    }
  }

  lemma {:induction false} EndStays(
      row: Row, updates: Tid -> BrokerOrder, order: seq<Tid>, done: map<Tid, UpdateOutcome>, final: Row)
    requires Explains(row, updates, order, done, final) && row.status.Terminal()
    ensures final == row
  {
    if order != [] {
      EndStays(row, updates, order[1..], done, final);
    }
  }

  /** Whatever the interleaving, at most one transaction ends the order, and the
      row is terminal then. */
  lemma AtMostOneEnds(start: Row, updates: Tid -> BrokerOrder, es: seq<Event>, t: Tid, u: Tid)
    requires Runs(Table(start, 0, map[], map[]), updates, es)
    requires var s := RunAll(Table(start, 0, map[], map[]), updates, es);
      t in s.done && u in s.done && s.done[t].Ends() && s.done[u].Ends()
    ensures t == u && RunAll(Table(start, 0, map[], map[]), updates, es).row.status.Terminal()
  {
    var s := RunAll(Table(start, 0, map[], map[]), updates, es);
    var order := Serialisable(start, updates, es);
    OneEnds(start, updates, order, s.done, s.row, t, u);
  }

  lemma {:induction false} RunConcat(s: Table, updates: Tid -> BrokerOrder, a: seq<Event>, b: seq<Event>)
    requires Runs(s, updates, a + b)
    ensures Runs(s, updates, a) && Runs(RunAll(s, updates, a), updates, b)
    ensures RunAll(s, updates, a + b) == RunAll(RunAll(s, updates, a), updates, b)
    decreases |a|
  {
    if a == [] {
      assert a + b == b;
    } else {
      assert (a + b)[0] == a[0] && (a + b)[1..] == a[1..] + b;
      RunConcat(Step(s, updates, a[0]), updates, a[1..], b);
    }
  }

  /** What a transaction loaded stays what it decides on; an unchanged version means
      that nothing was written. */
  lemma {:induction false} LoadStays(s: Table, updates: Tid -> BrokerOrder, es: seq<Event>, t: Tid)
    requires Runs(s, updates, es) && t in s.loads
    ensures var d := RunAll(s, updates, es);
      && t in d.loads && d.loads[t] == s.loads[t] && d.version >= s.version
      && (d.version == s.version ==> d.row == s.row)
    decreases |es|
  {
    if es != [] {
      LoadStays(Step(s, updates, es[0]), updates, es[1..], t);
    }
  }

  /** A terminal update of a live row survives its race exactly when nobody else wrote
      the row since it was loaded, or what they wrote had already ended it. */
  lemma TerminalUpdateSurvivesIff(s: Table, updates: Tid -> BrokerOrder, es: seq<Event>, t: Tid)
    requires Runs(s, updates, [Load(t)] + (es + [Commit(t)]))
    requires !s.row.status.Terminal() && s.row.filled <= s.row.quantity
    requires updates(t).status.Terminal() && updates(t).filled <= s.row.quantity
    ensures Runs(Step(s, updates, Load(t)), updates, es)
    ensures var before := RunAll(Step(s, updates, Load(t)), updates, es);
      var after := RunAll(s, updates, [Load(t)] + (es + [Commit(t)]));
      after.row.status.Terminal() <==> before.version == s.version || before.row.status.Terminal()
  {
    var loaded := Step(s, updates, Load(t));
    var rest := es + [Commit(t)];
    assert ([Load(t)] + rest)[0] == Load(t) && ([Load(t)] + rest)[1..] == rest;
    RunConcat(loaded, updates, es, [Commit(t)]);
    LoadStays(loaded, updates, es, t);
    var before := RunAll(loaded, updates, es);
    assert [Commit(t)][1..] == [];
    var after := Step(before, updates, Commit(t));
    assert RunAll(s, updates, [Load(t)] + rest) == after;
    assert Decide(s.row, updates(t)).0.status.Terminal();
  }

  /** Deferring to the other writer can lose the order's end: a partial fill that
      wins the race makes the terminal update a conflict, and the row stays open. */
  lemma TerminalUpdateCanLose(updates: Tid -> BrokerOrder) returns (start: Row, es: seq<Event>)
    requires updates(0) == BrokerOrder("b", "t", Open, 10, 4, None)
    requires updates(1) == BrokerOrder("b", "t", Complete, 10, 10, None)
    ensures Runs(Table(start, 0, map[], map[]), updates, es)
    ensures var s := RunAll(Table(start, 0, map[], map[]), updates, es);
      s.done.Keys == {0, 1} && s.done[1].Conflict? && s.row.status.Open? && s.row.filled == 4
  {
    start := Row(Open, 10, 0, None, Some("b"), Some("t"));
    es := [Load(0), Load(1), Commit(0), Commit(1)];
    var s0 := Table(start, 0, map[], map[]);
    var s1 := Step(s0, updates, Load(0));
    var s2 := Step(s1, updates, Load(1));
    var s3 := Step(s2, updates, Commit(0));
    var s4 := Step(s3, updates, Commit(1));
    assert es[1..] == [Load(1), Commit(0), Commit(1)];
    assert es[1..][1..] == [Commit(0), Commit(1)];
    assert es[1..][1..][1..] == [Commit(1)];
    assert es[1..][1..][1..][1..] == [];
    assert RunAll(s4, updates, []) == s4;
    assert Runs(s3, updates, [Commit(1)]) && RunAll(s3, updates, [Commit(1)]) == s4;
    assert Runs(s2, updates, [Commit(0), Commit(1)]) && RunAll(s2, updates, [Commit(0), Commit(1)]) == s4;
    assert Runs(s1, updates, es[1..]) && RunAll(s1, updates, es[1..]) == s4;
  }
}
