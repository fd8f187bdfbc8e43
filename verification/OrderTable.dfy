// The orders table and the two writers that update it in place: the push path
// (`Process`) and the poll path (`ReconcileOrderTerminal`).

module OrderTable {
  import opened Broker
  import opened OrderUpdates

  type RowId = nat

  datatype Located = Missing | Found(id: RowId) | Several

  // ---- What an update says about a row ----

  predicate Ended(row: Row) {
    row.status.Complete? || row.status.Rejected? || row.status.Cancelled? || row.status.Error?
  }

  predicate SameFill(was: Row, now: Row) {
    now.filled == was.filled && now.price == was.price
  }

  /** The update would record more than the row's quantity. */
  predicate TooMuch(row: Row, bo: BrokerOrder) {
    && !Ended(row) && bo.filled > row.quantity
    && (bo.status.Complete? || ((bo.status.Pending? || bo.status.Open?) && bo.filled > row.filled))
  }

  /** The price the broker names, else `otherwise`, else none at all. */
  predicate PricedBy(bo: BrokerOrder, otherwise: Option<real>, price: Option<real>) {
    price.Some? &&
    if bo.price.Some? && bo.price.value != 0.0 then price == bo.price
    else price.value == if otherwise.Some? then otherwise.value else 0.0
  }

  /** A row that an update which is not too much finds as `was` and leaves as `now`: an
      ended row is left alone; a row without the broker's id takes it, and keeps it for
      good; and the status and the fill are the broker's. */
  predicate Updated(was: Row, bo: BrokerOrder, now: Row, outcome: UpdateOutcome) {
    if Ended(was) then now == was && outcome.AlreadyTerminal?
    else
      && now.quantity == was.quantity && now.tag == was.tag
      && now.brokerId == (if was.brokerId.None? && bo.id != "" then Some(bo.id) else was.brokerId)
      && match bo.status
         case Complete =>
           && now.status.Complete? && now.filled == bo.filled && PricedBy(bo, None, now.price)
           && outcome.AppliedFill?
         case Cancelled => now.status.Cancelled? && SameFill(was, now) && outcome.AppliedCancellation?
         case Rejected => now.status.Rejected? && SameFill(was, now) && outcome.AppliedRejection?
         case Error => now.status.Rejected? && SameFill(was, now) && outcome.AppliedRejection?
         case _ =>
           if bo.filled > was.filled then
             && now.status.Open? && now.filled == bo.filled && PricedBy(bo, was.price, now.price)
             && outcome.AppliedPartialFill?
           else now.status == was.status && SameFill(was, now) && outcome.NoChange?
  }

  /** The shared decision in plain terms. */
  lemma DecisionUpdates(row: Row, bo: BrokerOrder)
    requires row.filled <= row.quantity
    ensures var (now, outcome) := Decide(row, bo);
      if TooMuch(row, bo) then now == row && outcome.Conflict? else Updated(row, bo, now, outcome)
  {
  }

  /** The shared decision, as the code performs it on the locked row. `refused`
      is the CHECK violation that rolls the transaction back. */
  method ApplyBrokerOrderUpdate(
      locked: Row, bo: BrokerOrder) returns (order: Row, outcome: UpdateOutcome, refused: bool)
    ensures !refused ==> (order, outcome) == Decide(locked, bo)
    ensures refused ==> Decide(locked, bo) == (locked, Conflict)
    ensures refused == Decide(locked, bo).1.Conflict?
    ensures locked.filled <= locked.quantity ==>
      refused == TooMuch(locked, bo) && (!refused ==> Updated(locked, bo, order, outcome))
  {
    order, refused := locked, false;
    if order.status.Terminal() {
      return order, AlreadyTerminal, false;
    }
    if order.brokerId.None? && bo.id != "" {
      order := order.(brokerId := Some(bo.id));
    }
    if bo.status.Complete? {
      order := order.(status := Complete, filled := bo.filled, price := Some(PriceOr(bo.price, None)));
      outcome := AppliedFill;
    } else if bo.status.Rejected? || bo.status.Error? {
      order := order.(status := Rejected);
      outcome := AppliedRejection;
    } else if bo.status.Cancelled? {
      order := order.(status := Cancelled);
      outcome := AppliedCancellation;
    } else if bo.filled > order.filled {
      order := order.(status := Open, filled := bo.filled, price := Some(PriceOr(bo.price, order.price)));
      outcome := AppliedPartialFill;
    } else {
      outcome := NoChange;
    }
    refused := order.filled > order.quantity;
  }

  predicate Match(row: Row, id: Option<string>, tag: Option<string>) {
    (id.Some? ==> row.brokerId == id) && (tag.Some? ==> row.tag == tag)
  }

  ghost predicate IdKnown(rows: map<RowId, Row>, id: string) {
    id != "" && exists l :: l in rows && rows[l].brokerId == Some(id)
  }

  /** The row an update refers to: by broker order id, else by tag. */
  ghost predicate RefersTo(rows: map<RowId, Row>, bo: BrokerOrder, k: RowId) {
    k in rows &&
    if IdKnown(rows, bo.id) then rows[k].brokerId == Some(bo.id) else bo.tag != "" && rows[k].tag == Some(bo.tag)
  }

  ghost predicate LocatedBy(rows: map<RowId, Row>, bo: BrokerOrder, found: Located) {
    match found
    case Missing => forall k :: !RefersTo(rows, bo, k)
    case Found(id) => forall k :: RefersTo(rows, bo, k) <==> k == id
    case Several => exists k, l :: k != l && RefersTo(rows, bo, k) && RefersTo(rows, bo, l)
  }

  class Orders {
    var rows: map<RowId, Row>

    /** The unique index on broker order ids, and the CHECK on every fill. */
    ghost predicate Valid()
      reads this
    {
      && (forall k, l ::
            k in rows && l in rows && rows[k].brokerId.Some? && rows[k].brokerId == rows[l].brokerId ==> k == l)
      && forall k :: k in rows ==> rows[k].filled <= rows[k].quantity
    }

    /** The poll path finds this row, and no other, by the broker's id. */
    ghost predicate Polled(id: string, k: RowId)
      reads this
    {
      k in rows && forall l :: l in rows ==> (rows[l].brokerId == Some(id) <==> l == k)
    }

    method FindBy(id: Option<string>, tag: Option<string>) returns (found: Located)
      requires id.Some? || tag.Some?
      ensures match found
        case Missing => forall k :: k in rows ==> !Match(rows[k], id, tag)
        case Found(k) =>
          k in rows && Match(rows[k], id, tag) && forall l :: l in rows && Match(rows[l], id, tag) ==> l == k
        case Several =>
          exists k, l :: k in rows && l in rows && k != l && Match(rows[k], id, tag) && Match(rows[l], id, tag)
    {
      found := Missing;
      var left := rows.Keys;
      while left != {}
        invariant left <= rows.Keys && !found.Several?
        invariant forall k :: k in rows && Match(rows[k], id, tag) ==> k in left || found == Found(k)
        invariant found.Found? ==> found.id in rows && found.id !in left && Match(rows[found.id], id, tag)
      {
        var k :| k in left;
        if Match(rows[k], id, tag) {
          if found.Found? {
            return Several;
          }
          found := Found(k);
        }
        left := left - {k};
      }
    }

    method Locate(bo: BrokerOrder) returns (found: Located)
      requires Valid()
      ensures LocatedBy(rows, bo, found)
    {
      if bo.id != "" {
        found := FindBy(Some(bo.id), None);
        if found.Found? {
          assert rows[found.id].brokerId == Some(bo.id);
          return;
        }
        assert found.Missing?;
        assert !IdKnown(rows, bo.id) by {
          forall l | l in rows ensures rows[l].brokerId != Some(bo.id) { assert !Match(rows[l], Some(bo.id), None); }
        }
      }
      if bo.tag != "" {
        found := FindBy(None, Some(bo.tag));
        if found.Several? {
          var k, l :| k in rows && l in rows && k != l
            && Match(rows[k], None, Some(bo.tag)) && Match(rows[l], None, Some(bo.tag));
          assert RefersTo(rows, bo, k) && RefersTo(rows, bo, l);
        }
        return;
      }
      found := Missing;
    }

    /** Push path. Changes at most the one row the update refers to, by the shared
        decision, and turns every failure into an outcome. From then on the poll path
        finds the row by the broker's id, unless it has another. */
    method Process(bo: BrokerOrder) returns (outcome: UpdateOutcome, ghost found: Located)
      requires Valid()
      modifies this
      ensures Valid() && LocatedBy(old(rows), bo, found)
      ensures match found
        case Missing => rows == old(rows) && outcome == NotFound
        case Several => rows == old(rows) && outcome == Conflict
        case Found(k) =>
          && k in old(rows) && rows == old(rows)[k := Decide(old(rows)[k], bo).0]
          && outcome == Decide(old(rows)[k], bo).1
          && (if TooMuch(old(rows)[k], bo) then rows == old(rows) && outcome.Conflict?
              else
                && Updated(old(rows)[k], bo, rows[k], outcome)
                && (bo.id != "" && !Ended(old(rows)[k]) && old(rows)[k].brokerId.None? ==> Polled(bo.id, k)))
    {
      var at := Locate(bo);
      found := at;
      match at
      case Missing => outcome := NotFound;
      case Several => outcome := Conflict;
      case Found(k) =>
        assert RefersTo(rows, bo, k);
        var order, refused;
        order, outcome, refused := ApplyBrokerOrderUpdate(rows[k], bo);
        if refused {
          outcome := Conflict;
          assert rows == rows[k := rows[k]];
        } else {
          LearnsFreeIdIff(rows, bo, k);
          rows := rows[k := order];
        }
    }

    /** Poll path: by broker order id only; a missing row is left alone. A refused
        fill escapes to the caller, with nothing written. */
    method ReconcileOrderTerminal(id: string, bo: BrokerOrder) returns (raised: bool)
      requires Valid() && id != ""
      modifies this
      ensures Valid()
      ensures (forall k :: k in old(rows) ==> old(rows)[k].brokerId != Some(id)) ==> rows == old(rows) && !raised
      ensures forall k :: k in old(rows) && old(rows)[k].brokerId == Some(id) ==>
        && rows == old(rows)[k := Decide(old(rows)[k], bo).0] && raised == TooMuch(old(rows)[k], bo)
        && (if raised then rows == old(rows) else exists outcome :: Updated(old(rows)[k], bo, rows[k], outcome))
    {
      raised := false;
      var found := FindBy(Some(id), None);
      if found.Found? {
        var k := found.id;
        var order, outcome;
        order, outcome, raised := ApplyBrokerOrderUpdate(rows[k], bo);
        if raised {
          assert rows == rows[k := rows[k]];
        } else {
          rows := rows[k := order];
          assert Updated(old(rows)[k], bo, rows[k], outcome);
        }
      } else {
        assert forall k :: k in rows ==> !Match(rows[k], Some(id), None);
      }
    }
  }

  /** An update gives a row a broker order id exactly when the row is live and has none,
      the update names one and is not too much; and no other row has that id. */
  lemma LearnsFreeIdIff(rows: map<RowId, Row>, bo: BrokerOrder, k: RowId)
    requires RefersTo(rows, bo, k) && rows[k].filled <= rows[k].quantity
    ensures Decide(rows[k], bo).0.brokerId != rows[k].brokerId <==>
      !Ended(rows[k]) && rows[k].brokerId.None? && bo.id != "" && !TooMuch(rows[k], bo)
    ensures Decide(rows[k], bo).0.brokerId != rows[k].brokerId ==>
      Decide(rows[k], bo).0.brokerId == Some(bo.id) && forall l :: l in rows ==> rows[l].brokerId != Some(bo.id)
  {
  }
}
