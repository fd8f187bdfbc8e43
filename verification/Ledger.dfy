// The simulated broker's position arithmetic: one fill folded into a net
// position, with profit realised on whatever part reduces or flips it.

module Ledger {
  import opened Broker

  datatype Holding = Holding(quantity: int, average: real, realized: real)

  datatype Fill = Fill(side: Side, quantity: int, price: real)

  const Flat := Holding(0, 0.0, 0.0)

  function Signed(side: Side, quantity: int): int {
    if side.Buy? then quantity else -quantity
  }

  function Abs(x: int): nat {
    if x < 0 then -x else x
  }

  function Min(x: int, y: int): int {
    if x < y then x else y
  }

  /** The average cost of `total` units, bought as `m` at `a` and `n` at `b`. */
  function Weighted(a: real, m: nat, b: real, n: nat, total: nat): real
    requires total > 0
  {
    (a * m as real + b * n as real) / total as real
  }

  /** Fold one fill into a position. */
  function Update(p: Holding, side: Side, filled: int, price: real): Holding {
    var delta := Signed(side, filled);
    if p.quantity == 0 || (p.quantity > 0) == (delta > 0) then
      var total := p.quantity + delta;
      if total == 0 then
        Holding(0, 0.0, p.realized)
      else
        Holding(total, Weighted(p.average, Abs(p.quantity), price, Abs(delta), Abs(total)), p.realized)
    else
      var closing := Min(Abs(p.quantity), Abs(delta));
      var realized := closing as real * (if p.quantity > 0 then price - p.average else p.average - price);
      var quantity := p.quantity + delta;
      var average := if Abs(delta) == closing then (if quantity != 0 then p.average else 0.0) else price;
      Holding(quantity, average, p.realized + realized)
  }

  function Take(p: Holding, f: Fill): Holding {
    Update(p, f.side, f.quantity, f.price)
  }

  function Replay(p: Holding, fills: seq<Fill>): Holding
    decreases fills
  {
    if fills == [] then p else Replay(Take(p, fills[0]), fills[1..])
  }

  /** The cash one fill costs: negative for a sale. */
  function Cost(f: Fill): real {
    Signed(f.side, f.quantity) as real * f.price
  }

  /** Cash received for what was sold, less cash paid for what was bought. */
  function Cash(fills: seq<Fill>): real {
    if fills == [] then 0.0 else Cash(fills[1..]) - Cost(fills[0])
  }

  /** Units bought less units sold. */
  function Net(fills: seq<Fill>): int {
    if fills == [] then 0 else Signed(fills[0].side, fills[0].quantity) + Net(fills[1..])
  }

  /** Realised profit less the cost of what is still held: the cash the position has produced. */
  function CashOf(p: Holding): real {
    p.realized - p.quantity as real * p.average
  }

  function Marked(p: Holding, last: real): real {
    p.realized + p.quantity as real * (last - p.average)
  }

  /** A flat position carries no average price. */
  predicate Squared(p: Holding) {
    p.quantity == 0 ==> p.average == 0.0
  }

  /** `q` holds `delta` more than `p`, and has paid for it. */
  predicate Moves(p: Holding, q: Holding, delta: int, price: real) {
    q.quantity == p.quantity + delta && CashOf(q) == CashOf(p) - delta as real * price && Squared(q)
  }

  // ---- One fill ----

  lemma WeightedTotal(a: real, m: nat, b: real, n: nat, total: nat)
    requires total > 0
    ensures Weighted(a, m, b, n, total) * total as real == a * m as real + b * n as real
  {
    Divide(a * m as real + b * n as real, total as real);
  }

  lemma WeightedByOne(a: real, m: nat, b: real, n: nat, total: nat)
    requires m == total > 0 && n == 0
    ensures Weighted(a, m, b, n, total) == a
  {
    var num := a * m as real + b * n as real;
    assert b * n as real == 0.0;
    assert num == a * total as real;
    Divide(a, total as real);
  }

  lemma Divide(x: real, y: real)
    requires y != 0.0
    ensures x / y * y == x && x * y / y == x
  {
  }

  /** Every fill moves exactly its own cash and its own quantity. */
  lemma FillMovesCash(p: Holding, side: Side, filled: int, price: real)
    ensures Moves(p, Update(p, side, filled, price), Signed(side, filled), price)
  {
    var delta := Signed(side, filled);
    if p.quantity == 0 || (p.quantity > 0) == (delta > 0) {
      OpeningMovesCash(p, side, filled, price);
    } else {
      ClosingMovesCash(p, side, filled, price);
    }
  }

  lemma ClosingMovesCash(p: Holding, side: Side, filled: int, price: real)
    requires p.quantity != 0 && (p.quantity > 0) != (Signed(side, filled) > 0)
    ensures Moves(p, Update(p, side, filled, price), Signed(side, filled), price)
  {
    var delta, q := Signed(side, filled), Update(p, side, filled, price);
    RealisedIsGain(p, side, filled, price);
    WhatAFillRealises(p, side, filled, price);
    var n: int := Closed(p, delta);
    Negated(n, p.average, price);
    ClosingCash(p, q, delta, price, if p.quantity > 0 then n else -n, Gain(p, delta, price));
  }

  lemma Negated(n: int, a: real, b: real)
    ensures n as real * (a - b) == (-n) as real * (b - a)
  {
  }

  /** Closing `k` units (negative for a short position) pays for itself. */
  lemma ClosingCash(p: Holding, q: Holding, delta: int, price: real, k: int, gain: real)
    requires q.quantity == p.quantity + delta && q.realized == p.realized + gain && Squared(q)
    requires gain == k as real * (price - p.average)
    requires q.quantity == 0 ==> k == -delta == p.quantity
    requires q.quantity != 0 ==> (k == -delta && q.average == p.average) || (k == p.quantity && q.average == price)
    ensures Moves(p, q, delta, price)
  {
    var held, change, closed := p.quantity as real, delta as real, k as real;
    assert q.quantity as real == held + change;
    assert gain == closed * price - closed * p.average;
    if q.quantity != 0 {
      assert (held + change) * q.average == held * q.average + change * q.average;
    }
    if k == -delta {
      assert closed == -change;
    } else {
      assert closed == held;
    }
  }

  lemma OpeningMovesCash(p: Holding, side: Side, filled: int, price: real)
    requires p.quantity == 0 || (p.quantity > 0) == (Signed(side, filled) > 0)
    ensures Moves(p, Update(p, side, filled, price), Signed(side, filled), price)
  {
    var delta := Signed(side, filled);
    var q := Update(p, side, filled, price);
    if q.quantity != 0 {
      WeightedTotal(p.average, Abs(p.quantity), price, Abs(delta), Abs(p.quantity + delta));
      SignedCost(q.average, q.quantity, p.average, p.quantity, price, delta);
    }
  }

  lemma SignedCost(mean: real, total: int, average: real, held: int, price: real, added: int)
    requires total == held + added && ((held >= 0 && added >= 0) || (held <= 0 && added <= 0))
    requires mean * Abs(total) as real == average * Abs(held) as real + price * Abs(added) as real
    ensures total as real * mean == held as real * average + added as real * price
  {
    if held < 0 || added < 0 {
      assert mean * (-(total as real)) == average * (-(held as real)) + price * (-(added as real));
    }
  }

  /** Adding to a position realises nothing; reducing it leaves the average alone. */
  lemma WhatAFillRealises(p: Holding, side: Side, filled: int, price: real)
    ensures var (d, q) := (Signed(side, filled), Update(p, side, filled, price));
      && ((p.quantity >= 0 && d > 0) || (p.quantity <= 0 && d < 0) ==> q.realized == p.realized)
      && ((p.quantity > 0 && -p.quantity < d <= 0) || (p.quantity < 0 && 0 <= d < -p.quantity) ==>
        q.average == p.average)
      && ((p.quantity > 0 && d < -p.quantity) || (p.quantity < 0 && d > -p.quantity) ==> q.average == price)
  {
    var d := Signed(side, filled);
    if p.quantity < 0 && d == 0 {
      WeightedByOne(p.average, Abs(p.quantity), price, Abs(d), Abs(p.quantity + d));
    }
  }

  /** A holding is determined by its quantity, its realised profit and its cash. */
  lemma SameCashSameAverage(p: Holding, q: Holding)
    requires p.quantity == q.quantity && p.realized == q.realized && CashOf(p) == CashOf(q) && Squared(p) && Squared(q)
    ensures p == q
  {
    if p.quantity != 0 {
      var n := p.quantity as real;
      assert n * p.average == n * q.average;
      assert n * (p.average - q.average) == 0.0;
    }
  }

  /** An order filled in two steps at one price leaves the position a single fill would. */
  lemma SplitFill(p: Holding, side: Side, a: nat, b: nat, price: real)
    requires Squared(p)
    ensures Update(Update(p, side, a, price), side, b, price) == Update(p, side, a + b, price)
  {
    var mid := Update(p, side, a, price);
    FillMovesCash(p, side, a, price);
    FillMovesCash(mid, side, b, price);
    FillMovesCash(p, side, a + b, price);
    SplitRealised(p, side, a, b, price);
    SameMoves(p, mid, Update(mid, side, b, price), Update(p, side, a + b, price), Signed(side, a), Signed(side, b),
      price);
  }

  lemma SameMoves(p: Holding, mid: Holding, two: Holding, one: Holding, d: int, e: int, price: real)
    requires Moves(p, mid, d, price) && Moves(mid, two, e, price) && Moves(p, one, d + e, price)
    requires two.realized == one.realized
    ensures two == one
  {
    Distribute(d, e, price);
    SameCashSameAverage(two, one);
  }

  lemma Distribute(x: int, y: int, r: real)
    ensures (x + y) as real * r == x as real * r + y as real * r
  {
  }

  /** How many units of `p` a fill of `delta` units closes, and what closing each earns. */
  function Closed(p: Holding, delta: int): nat {
    if p.quantity > 0 && delta <= 0 then Min(p.quantity, -delta)
    else if p.quantity < 0 && delta >= 0 then Min(-p.quantity, delta)
    else 0
  }

  function Edge(p: Holding, price: real): real {
    if p.quantity > 0 then price - p.average else p.average - price
  }

  /** Profit realised by a fill of `delta` units against `p`. */
  function Gain(p: Holding, delta: int, price: real): real {
    Closed(p, delta) as real * Edge(p, price)
  }

  lemma ZeroTimes(n: int, r: real)
    requires n == 0
    ensures n as real * r == 0.0
  {
  }

  lemma RealisedIsGain(p: Holding, side: Side, filled: int, price: real)
    ensures Update(p, side, filled, price).realized == p.realized + Gain(p, Signed(side, filled), price)
  {
    var delta := Signed(side, filled);
    if p.quantity == 0 || (p.quantity > 0) == (delta > 0) {
      ZeroTimes(Closed(p, delta), Edge(p, price));
    } else {
      assert Closed(p, delta) == Min(Abs(p.quantity), Abs(delta));
    }
  }

  lemma SplitRealised(p: Holding, side: Side, a: nat, b: nat, price: real)
    requires Squared(p)
    ensures Update(Update(p, side, a, price), side, b, price).realized == Update(p, side, a + b, price).realized
  {
    var mid := Update(p, side, a, price);
    var d, e := Signed(side, a), Signed(side, b);
    RealisedIsGain(p, side, a, price);
    RealisedIsGain(mid, side, b, price);
    RealisedIsGain(p, side, a + b, price);
    assert Signed(side, a + b) == d + e;
    assert mid.quantity == p.quantity + d by { FillMovesCash(p, side, a, price); }
    WhatAFillRealises(p, side, a, price);
    SplitGain(p, mid, d, e, price);
  }

  lemma SplitGain(p: Holding, mid: Holding, d: int, e: int, price: real)
    requires (d >= 0 && e >= 0) || (d <= 0 && e <= 0)
    requires mid.quantity == p.quantity + d
    requires (p.quantity > 0 && -p.quantity < d <= 0) || (p.quantity < 0 && 0 <= d < -p.quantity) ==>
      mid.average == p.average
    ensures Gain(p, d + e, price) == Gain(p, d, price) + Gain(mid, e, price)
  {
    SplitClosed(p, mid, d, e);
    if Closed(mid, e) == 0 {
      ZeroTimes(Closed(mid, e), Edge(mid, price));
    } else {
      assert Edge(mid, price) == Edge(p, price);
      SumOfParts(Closed(p, d), Closed(mid, e), Closed(p, d + e), Edge(p, price));
    }
  }

  lemma SplitClosed(p: Holding, mid: Holding, d: int, e: int)
    requires (d >= 0 && e >= 0) || (d <= 0 && e <= 0)
    requires mid.quantity == p.quantity + d
    ensures Closed(p, d + e) == Closed(p, d) + Closed(mid, e)
    ensures Closed(mid, e) > 0 ==>
      p.quantity != 0 && (p.quantity > 0) == (mid.quantity > 0) &&
      ((p.quantity > 0 && -p.quantity < d <= 0) || (p.quantity < 0 && 0 <= d < -p.quantity))
  {
  }

  lemma SumOfParts(x: int, y: int, z: int, r: real)
    requires z == x + y
    ensures z as real * r == x as real * r + y as real * r
  {
    Distribute(x, y, r);
  }

  /** The average price never leaves the range of the prices paid. */
  lemma AverageWithinPrices(p: Holding, side: Side, filled: int, price: real, low: real, high: real)
    requires low <= price <= high && (p.quantity != 0 ==> low <= p.average <= high)
    ensures var q := Update(p, side, filled, price); q.quantity != 0 ==> low <= q.average <= high
  {
    var delta, q := Signed(side, filled), Update(p, side, filled, price);
    if q.quantity != 0 && (p.quantity == 0 || (p.quantity > 0) == (delta > 0)) {
      WeightedTotal(p.average, Abs(p.quantity), price, Abs(delta), Abs(p.quantity + delta));
      MeanWithin(q.average, p.average, Abs(p.quantity), price, Abs(delta), low, high);
    }
  }

  lemma Scaled(x: real, y: real, t: real)
    requires t >= 0.0 && (t > 0.0 ==> x <= y)
    ensures x * t <= y * t
  {
    if t > 0.0 {
      assert (y - x) * t >= 0.0;
    }
  }

  lemma MeanWithin(mean: real, a: real, m: nat, b: real, n: nat, low: real, high: real)
    requires m + n > 0 && mean * (m + n) as real == a * m as real + b * n as real
    requires low <= b <= high && (m > 0 ==> low <= a <= high)
    ensures low <= mean <= high
  {
    var x, y := m as real, n as real;
    Scaled(low, a, x);
    Scaled(low, b, y);
    Scaled(a, high, x);
    Scaled(b, high, y);
    NoMoreThan(low, mean, x, y, a * x + b * y);
    NoLessThan(high, mean, x, y, a * x + b * y);
  }

  lemma NoMoreThan(low: real, mean: real, x: real, y: real, total: real)
    requires x + y > 0.0 && mean * (x + y) == total && low * x + low * y <= total
    ensures low <= mean
  {
    assert (mean - low) * (x + y) >= 0.0;
  }

  lemma NoLessThan(high: real, mean: real, x: real, y: real, total: real)
    requires x + y > 0.0 && mean * (x + y) == total && total <= high * x + high * y
    ensures mean <= high
  {
    assert (high - mean) * (x + y) >= 0.0;
  }

  // ---- Whole sequences of fills ----

  lemma TakeMovesCash(p: Holding, f: Fill)
    ensures Take(p, f).quantity == p.quantity + Signed(f.side, f.quantity)
    ensures CashOf(Take(p, f)) == CashOf(p) - Cost(f)
    ensures Squared(Take(p, f))
  {
    FillMovesCash(p, f.side, f.quantity, f.price);
  }

  /** The profit-and-loss identity, over closes and flips alike. */
  lemma {:induction false} ProfitIdentity(p: Holding, fills: seq<Fill>)
    ensures Replay(p, fills).quantity == p.quantity + Net(fills)
    ensures CashOf(Replay(p, fills)) == CashOf(p) + Cash(fills)
    ensures Squared(p) ==> Squared(Replay(p, fills))
    decreases fills
  {
    if fills != [] {
      TakeMovesCash(p, fills[0]);
      ProfitIdentity(Take(p, fills[0]), fills[1..]);
    }
  }

  lemma MarkedIsCashPlusValue(p: Holding, last: real)
    ensures Marked(p, last) == CashOf(p) + p.quantity as real * last
  {
    assert p.quantity as real * (last - p.average) == p.quantity as real * last - p.quantity as real * p.average;
  }

  /** From flat: marked profit is net cash plus the value of what is held, and a
      position that is flat again has realised exactly its net cash. */
  lemma MarkedProfit(fills: seq<Fill>, last: real)
    ensures Marked(Replay(Flat, fills), last) == Cash(fills) + Net(fills) as real * last
    ensures Net(fills) == 0 ==> Replay(Flat, fills) == Holding(0, 0.0, Cash(fills))
  {
    ProfitIdentity(Flat, fills);
    MarkedFrom(Replay(Flat, fills), Net(fills), Cash(fills), last);
  }

  lemma MarkedFrom(q: Holding, net: int, cash: real, last: real)
    requires q.quantity == net && CashOf(q) == cash && Squared(q)
    ensures Marked(q, last) == cash + net as real * last
    ensures net == 0 ==> q == Holding(0, 0.0, cash)
  {
    MarkedIsCashPlusValue(q, last);
  }

  lemma {:induction false} CashToFront(u: seq<Fill>, f: Fill, v: seq<Fill>)
    ensures Cash(u + ([f] + v)) == Cash(u + v) - Cost(f)
    ensures Net(u + ([f] + v)) == Net(u + v) + Signed(f.side, f.quantity)
  {
    if u == [] {
      assert u + ([f] + v) == [f] + v && u + v == v;
      assert ([f] + v)[1..] == v;
    } else {
      assert (u + v)[0] == u[0] && (u + v)[1..] == u[1..] + v;
      assert (u + ([f] + v))[0] == u[0] && (u + ([f] + v))[1..] == u[1..] + ([f] + v);
      CashToFront(u[1..], f, v);
    }
  }

  lemma Extract(f: Fill, s: seq<Fill>, t: seq<Fill>) returns (u: seq<Fill>, v: seq<Fill>)
    requires multiset([f] + s) == multiset(t)
    ensures t == u + ([f] + v) && multiset(s) == multiset(u + v)
  {
    assert multiset([f] + s) == multiset{f} + multiset(s);
    assert f in t by { assert f in multiset(t); }
    var k :| 0 <= k < |t| && t[k] == f;
    u, v := t[..k], t[k + 1..];
    assert t == u + ([f] + v);
    assert multiset(t) == multiset{f} + multiset(u + v);
    Uncover(f, multiset(s), multiset(u + v));
  }

  lemma Uncover(f: Fill, a: multiset<Fill>, b: multiset<Fill>)
    requires multiset{f} + a == multiset{f} + b
    ensures a == b
  {
    assert a == multiset{f} + a - multiset{f};
    assert b == multiset{f} + b - multiset{f};
  }

  lemma {:induction false} CashPermutes(s: seq<Fill>, t: seq<Fill>)
    requires multiset(s) == multiset(t)
    ensures Cash(s) == Cash(t) && Net(s) == Net(t)
    decreases s
  {
    if s == [] {
      assert |t| == |multiset(t)| == 0;
    } else {
      assert s == [s[0]] + s[1..];
      var u, v := Extract(s[0], s[1..], t);
      CashPermutes(s[1..], u + v);
      CashToFront(u, s[0], v);
    }
  }

  lemma MarkedAgree(p: Holding, q: Holding, net: int, cash: real, last: real)
    requires p.quantity == q.quantity == net && CashOf(p) == CashOf(q) == cash
    ensures Marked(p, last) == Marked(q, last)
  {
    MarkedIsCashPlusValue(p, last);
    MarkedIsCashPlusValue(q, last);
  }

  /** The order in which fills arrive never changes the quantity held or the marked profit. */
  lemma MarkedProfitPermutes(s: seq<Fill>, t: seq<Fill>, last: real)
    requires multiset(s) == multiset(t)
    ensures Replay(Flat, s).quantity == Replay(Flat, t).quantity
    ensures Marked(Replay(Flat, s), last) == Marked(Replay(Flat, t), last)
  {
    CashPermutes(s, t);
    ProfitIdentity(Flat, s);
    ProfitIdentity(Flat, t);
    MarkedAgree(Replay(Flat, s), Replay(Flat, t), Net(s), Cash(s), last);
  }

  /** Only the marked profit is independent of order: the split between realised
      and unrealised is not. */
  lemma RealisedDependsOnOrder()
    ensures var (x, y, z) := (Fill(Buy, 1, 10.0), Fill(Buy, 1, 20.0), Fill(Sell, 1, 30.0));
      Replay(Flat, [x, y, z]).realized != Replay(Flat, [x, z, y]).realized
  {
    var x, y, z := Fill(Buy, 1, 10.0), Fill(Buy, 1, 20.0), Fill(Sell, 1, 30.0);
    assert [x, y, z][1..] == [y, z] && [y, z][1..] == [z] && [x, z, y][1..] == [z, y] && [z, y][1..] == [y];
    var one, two := Holding(1, 10.0, 0.0), Holding(2, 15.0, 0.0);
    assert Take(Flat, x) == one;
    assert Take(one, y) == two by { assert 30.0 / 2.0 == 15.0; }
    assert Replay(two, [z]) == Take(two, z) && Take(two, z).realized == 15.0;
    assert Replay(one, [y, z]) == Replay(two, [z]);
    var shut := Holding(0, 0.0, 20.0);
    assert Take(one, z) == shut && Take(shut, y).realized == 20.0;
    assert Replay(shut, [y]) == Take(shut, y);
  }
}
