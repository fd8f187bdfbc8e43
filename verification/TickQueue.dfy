// The collector's tick queue: a bounded queue between the socket thread and one
// writer thread that retries failed batches. Every lock-protected section and
// every write attempt is one event; ticks are followed by their place in the
// stream of everything offered.

module TickQueue {

  datatype Policy = DropOldest | DropNewest

  datatype Config = Config(queueMax: nat, batchSize: nat, policy: Policy) {
    predicate Ok() {
      queueMax > 0 && batchSize > 0
    }
  }

  /** Where each of the `offered` ticks is now: waiting, being written, written,
      shed on overflow, or lost at shutdown. `accepted` lists those once queued. */
  datatype Pipe = Pipe(
    offered: nat, accepted: seq<nat>, queue: seq<nat>, batch: seq<nat>, written: seq<nat>,
    shed: set<nat>, lost: set<nat>, attempts: nat, stopping: bool)

  const Fresh := Pipe(0, [], [], [], [], {}, {}, 0, false)

  datatype Event = Offer | Take | WriteOk | WriteFail | Stop | Start

  /** One writer thread: it takes a batch only when it holds none. */
  predicate Enabled(p: Pipe, e: Event) {
    match e
    case Take => p.batch == []
    case Start => p.batch == []
    case WriteOk => p.batch != []
    case WriteFail => p.batch != []
    case _ => true
  }

  function Elements(s: seq<nat>): set<nat> {
    set x | x in s
  }

  function Offered(c: Config, p: Pipe): Pipe
    requires c.Ok()
  {
    var n := p.offered;
    var kept := p.(offered := n + 1, accepted := p.accepted + [n]);
    if |p.queue| < c.queueMax then kept.(queue := p.queue + [n])
    else if c.policy.DropOldest? then kept.(queue := p.queue[1..] + [n], shed := p.shed + {p.queue[0]})
    else p.(offered := n + 1, shed := p.shed + {n})
  }

  function Taken(c: Config, p: Pipe): Pipe {
    var n := if |p.queue| < c.batchSize then |p.queue| else c.batchSize;
    p.(queue := p.queue[n..], batch := p.queue[..n], attempts := 0)
  }

  function Failed(p: Pipe): Pipe {
    if p.stopping && p.attempts + 1 >= 3 then p.(batch := [], lost := p.lost + Elements(p.batch), attempts := 0)
    else p.(attempts := p.attempts + 1)
  }

  function Step(c: Config, p: Pipe, e: Event): Pipe
    requires c.Ok() && Enabled(p, e)
  {
    match e
    case Offer => Offered(c, p)
    case Take => Taken(c, p)
    case WriteOk => p.(written := p.written + p.batch, batch := [], attempts := 0)
    case WriteFail => Failed(p)
    case Stop => p.(stopping := true)
    case Start => p.(stopping := false)
  }

  // ---- What every event keeps ----

  ghost predicate Ascending(s: seq<nat>) {
    forall m, n :: 0 <= m < n < |s| ==> s[m] < s[n]
  }

  /** The ticks neither shed nor lost, oldest first. */
  function Alive(p: Pipe): seq<nat> {
    p.written + p.batch + p.queue
  }

  /** Every offered tick is in exactly one place, and the ones written, in flight
      and waiting are, in that order, in the order they were offered. */
  ghost predicate Conserved(p: Pipe) {
    && Ascending(Alive(p))
    && (forall n: nat :: n < p.offered <==> n in Alive(p) || n in p.shed || n in p.lost)
    && (forall n: nat ::
          !(n in Alive(p) && n in p.shed) && !(n in Alive(p) && n in p.lost) && !(n in p.shed && n in p.lost))
  }

  ghost predicate Holds(c: Config, p: Pipe) {
    && Conserved(p)
    && |p.queue| <= c.queueMax
    && (c.policy.DropOldest? ==> Suffix(p))
    && (c.policy.DropNewest? ==> KeptInOrder(p))
  }

  /** The queue is the tail end of everything offered. */
  ghost predicate Suffix(p: Pipe) {
    |p.queue| <= p.offered && forall k :: 0 <= k < |p.queue| ==> p.queue[k] == p.offered - |p.queue| + k
  }

  /** Nothing accepted is missing but what shutdown lost; before that, what is
      written, in flight and waiting is exactly the accepted sequence. */
  ghost predicate KeptInOrder(p: Pipe) {
    && (forall n: nat :: n in p.accepted <==> n in Alive(p) || n in p.lost)
    && Ascending(p.accepted)
    && (p.lost == {} ==> Alive(p) == p.accepted)
  }

  lemma AscendingSnoc(s: seq<nat>, n: nat)
    requires Ascending(s) && forall k :: k in s ==> k < n
    ensures Ascending(s + [n])
  {
    forall k | 0 <= k < |s| ensures (s + [n])[k] == s[k] < n { assert s[k] in s; }
  }

  lemma AscendingWithout(u: seq<nat>, x: nat, v: seq<nat>)
    requires Ascending(u + [x] + v)
    ensures Ascending(u + v) && x !in u + v
  {
    forall k | 0 <= k < |u + v| ensures (u + v)[k] == (u + [x] + v)[if k < |u| then k else k + 1] {}
    assert (u + [x] + v)[|u|] == x;
  }

  lemma OfferKeeps(c: Config, p: Pipe)
    requires c.Ok() && Holds(c, p)
    ensures Holds(c, Offered(c, p))
  {
    AcceptedBelow(c, p);
    if |p.queue| < c.queueMax {
      assert Alive(Offered(c, p)) == Alive(p) + [p.offered];
      AscendingSnoc(Alive(p), p.offered);
      if c.policy.DropNewest? { AscendingSnoc(p.accepted, p.offered); }
    } else if c.policy.DropOldest? {
      ShedOldestKeeps(c, p);
    } else {
      assert Alive(Offered(c, p)) == Alive(p);
    }
  }

  lemma AcceptedBelow(c: Config, p: Pipe)
    requires Holds(c, p)
    ensures forall k :: k in Alive(p) ==> k < p.offered
    ensures c.policy.DropNewest? ==> forall k :: k in p.accepted ==> k < p.offered
  {
  }

  lemma ShedOldestKeeps(c: Config, p: Pipe)
    requires c.Ok() && Holds(c, p) && |p.queue| >= c.queueMax && c.policy.DropOldest?
    ensures Holds(c, Offered(c, p))
  {
    var q, u, x, v := Offered(c, p), p.written + p.batch, p.queue[0], p.queue[1..];
    assert Alive(p) == u + [x] + v && Alive(q) == u + v + [p.offered];
    AscendingWithout(u, x, v);
    forall k ensures k in Alive(p) <==> k in u + v || k == x {}
    AscendingSnoc(u + v, p.offered);
  }

  lemma TakeKeeps(c: Config, p: Pipe)
    requires c.Ok() && Holds(c, p) && p.batch == []
    ensures Holds(c, Taken(c, p)) && Alive(Taken(c, p)) == Alive(p)
  {
    var q := Taken(c, p);
    assert p.queue == q.batch + q.queue;
    assert Alive(q) == Alive(p);
  }

  lemma WriteKeeps(c: Config, p: Pipe)
    requires c.Ok() && Holds(c, p) && p.batch != []
    ensures Holds(c, Step(c, p, WriteOk)) && Alive(Step(c, p, WriteOk)) == Alive(p)
  {
    var q := Step(c, p, WriteOk);
    assert Alive(q) == Alive(p);
  }

  lemma AscendingCut(u: seq<nat>, b: seq<nat>, v: seq<nat>)
    requires Ascending(u + b + v)
    ensures Ascending(u + v)
    ensures forall n :: n in u + b + v <==> n in u + v || n in b
    ensures forall n :: n in b ==> n !in u + v
  {
    var a := u + b + v;
    forall k | 0 <= k < |u + v| ensures (u + v)[k] == a[if k < |u| then k else k + |b|] {}
    forall n | n in b ensures n !in u + v {
      var m :| 0 <= m < |b| && b[m] == n;
      assert a[|u| + m] == n;
    }
  }

  lemma FailKeeps(c: Config, p: Pipe)
    requires c.Ok() && Holds(c, p) && p.batch != []
    ensures Holds(c, Failed(p))
  {
    var q := Failed(p);
    if q.batch == [] {
      assert Alive(q) == p.written + p.queue;
      AscendingCut(p.written, p.batch, p.queue);
      assert p.batch[0] in q.lost;
    } else {
      assert Alive(q) == Alive(p);
    }
  }

  lemma StepKeeps(c: Config, p: Pipe, e: Event)
    requires c.Ok() && Holds(c, p) && Enabled(p, e)
    ensures Holds(c, Step(c, p, e))
  {
    match e
    case Offer => OfferKeeps(c, p);
    case Take => TakeKeeps(c, p);
    case WriteOk => WriteKeeps(c, p);
    case WriteFail => FailKeeps(c, p);
    case Stop => assert Alive(Step(c, p, e)) == Alive(p);
    case Start => assert Alive(Step(c, p, e)) == Alive(p);
  }

  // ---- Whole runs ----

  ghost predicate CanRun(c: Config, p: Pipe, es: seq<Event>)
    requires c.Ok()
    decreases |es|
  {
    es != [] ==> Enabled(p, es[0]) && CanRun(c, Step(c, p, es[0]), es[1..])
  }

  ghost function Run(c: Config, p: Pipe, es: seq<Event>): Pipe
    requires c.Ok() && CanRun(c, p, es)
    decreases |es|
  {
    if es == [] then p else Run(c, Step(c, p, es[0]), es[1..])
  }

  lemma {:induction false} RunHolds(c: Config, p: Pipe, es: seq<Event>)
    requires c.Ok() && CanRun(c, p, es) && Holds(c, p)
    ensures Holds(c, Run(c, p, es))
    decreases |es|
  {
    if es != [] {
      StepKeeps(c, p, es[0]);
      RunHolds(c, Step(c, p, es[0]), es[1..]);
    }
  }

  /** A set of naturals below `n` has the size its complement leaves it. */
  lemma {:induction false} CountBelow(s: set<nat>, n: nat)
    requires forall x: nat :: x in s <==> x < n
    ensures |s| == n
  {
    if n == 0 {
      assert s == {};
    } else {
      CountBelow(s - {n - 1}, n - 1);
    }
  }

  lemma {:induction false} AscendingCount(s: seq<nat>)
    requires Ascending(s)
    ensures |Elements(s)| == |s|
  {
    if s != [] {
      var rest := s[..|s| - 1];
      AscendingCount(rest);
      assert Elements(s) == Elements(rest) + {s[|s| - 1]};
      assert s[|s| - 1] !in rest;
    }
  }

  /** Under any interleaving: offered = written + in flight + waiting + dropped. */
  lemma OfferedIsConserved(c: Config, es: seq<Event>)
    requires c.Ok() && CanRun(c, Fresh, es)
    ensures var p := Run(c, Fresh, es);
      && p.offered == |p.written| + |p.batch| + |p.queue| + |p.shed| + |p.lost|
      && |p.queue| <= c.queueMax && Ascending(p.written)
  {
    RunHolds(c, Fresh, es);
    Counted(c, Run(c, Fresh, es));
  }

  lemma Counted(c: Config, p: Pipe)
    requires Holds(c, p)
    ensures p.offered == |p.written| + |p.batch| + |p.queue| + |p.shed| + |p.lost| && Ascending(p.written)
  {
    AscendingCount(Alive(p));
    CountBelow(Elements(Alive(p)) + p.shed + p.lost, p.offered);
    assert forall k :: 0 <= k < |p.written| ==> p.written[k] == Alive(p)[k];
  }

  /** Nothing is lost but at shutdown: without a stop, a tick is dropped only by the
      overflow policy, and under `DropNewest` none that was accepted. */
  lemma {:induction false} LostOnlyAtShutdown(c: Config, p: Pipe, es: seq<Event>)
    requires c.Ok() && CanRun(c, p, es) && Stop !in es && !p.stopping
    ensures Run(c, p, es).lost == p.lost && !Run(c, p, es).stopping
    decreases |es|
  {
    if es != [] {
      LostOnlyAtShutdown(c, Step(c, p, es[0]), es[1..]);
    }
  }

  lemma AcceptedInOrder(c: Config, es: seq<Event>)
    requires c.Ok() && c.policy.DropNewest? && CanRun(c, Fresh, es) && Stop !in es
    ensures var p := Run(c, Fresh, es); p.written + p.batch + p.queue == p.accepted
  {
    RunHolds(c, Fresh, es);
    LostOnlyAtShutdown(c, Fresh, es);
  }

  /** The last request, if there was one, was to stop. */
  predicate StopStands(es: seq<Event>, before: bool)
    decreases |es|
  {
    if es == [] then before
    else StopStands(es[1..], if es[0] == Stop then true else if es[0] == Start then false else before)
  }

  /** The writer is stopping exactly when the last request it got was to stop. */
  lemma {:induction false} StoppingIff(c: Config, p: Pipe, es: seq<Event>)
    requires c.Ok() && CanRun(c, p, es)
    ensures Run(c, p, es).stopping <==> StopStands(es, p.stopping)
    decreases |es|
  {
    if es != [] {
      StoppingIff(c, Step(c, p, es[0]), es[1..]);
    }
  }

  /** Failures one after the other. */
  function Failures(k: nat): seq<Event> {
    seq(k, n => WriteFail)
  }

  /** Failed attempts on one batch are counted; the batch survives any number of them
      before a stop and two during one, and the third during one costs it. */
  lemma {:induction false} FailuresCount(c: Config, p: Pipe, k: nat)
    requires c.Ok() && p.batch != [] && (p.stopping ==> p.attempts + k <= 2)
    ensures CanRun(c, p, Failures(k)) && Run(c, p, Failures(k)) == p.(attempts := p.attempts + k)
    ensures p.stopping && p.attempts + k == 2 ==>
      var q := Step(c, Run(c, p, Failures(k)), WriteFail);
      && q.batch == [] && q.attempts == 0 && q.written == p.written && q.queue == p.queue
      && q.lost == p.lost + Elements(p.batch)
    decreases k
  {
    if k > 0 {
      assert Failures(k)[0] == WriteFail && Failures(k)[1..] == Failures(k - 1);
      FailuresCount(c, p.(attempts := p.attempts + 1), k - 1);
    }
  }

  /** A fresh batch starts its attempts anew, and is as large as it may be. */
  lemma TakenInFull(c: Config, p: Pipe)
    requires c.Ok() && p.batch == []
    ensures var q := Step(c, p, Take);
      && q.batch + q.queue == p.queue && q.attempts == 0
      && |q.batch| <= c.batchSize && (|q.batch| == c.batchSize || q.queue == [])
  {
  }

  /** A tick is shed exactly when the queue is full: the oldest waiting, or the new one,
      by the policy. */
  lemma ShedIff(c: Config, p: Pipe)
    requires c.Ok() && Holds(c, p)
    ensures var q := Step(c, p, Offer);
      && (q.shed == p.shed <==> |p.queue| < c.queueMax)
      && (q.shed != p.shed ==> q.shed == p.shed + {if c.policy.DropOldest? then p.queue[0] else p.offered})
  {
    if |p.queue| >= c.queueMax {
      assert p.queue[0] == Alive(p)[|p.written| + |p.batch|];
      assert p.queue[0] in Alive(p);
    }
  }

  /** A batch is given up in exactly one situation: its third or later attempt fails while stopping. */
  lemma GivenUpIff(c: Config, p: Pipe, e: Event)
    requires c.Ok() && Enabled(p, e) && Holds(c, p)
    ensures Step(c, p, e).lost != p.lost <==> e.WriteFail? && p.stopping && p.attempts >= 2
  {
    if e.WriteFail? && p.stopping && p.attempts >= 2 {
      assert p.batch[0] == Alive(p)[|p.written|];
      assert p.batch[0] in Step(c, p, e).lost;
    }
  }
}
