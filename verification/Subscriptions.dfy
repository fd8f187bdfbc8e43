// Reference-counted market-data subscriptions, and what they guarantee over a
// socket that forgets everything when it drops: the client's calls and the
// stream's connect handler interleave step by step.

module Subscriptions {

  datatype Instrument = Instrument(exchange: string, symbol: string)

  type Counts = map<Instrument, nat>

  function CountOf(c: Counts, x: Instrument): nat {
    if x in c then c[x] else 0
  }

  ghost predicate Positive(c: Counts) {
    forall x :: x in c ==> c[x] > 0
  }

  // ---- The reference-counted set ----

  class SubscriptionManager {
    var counts: Counts

    ghost predicate Valid()
      reads this
    {
      Positive(counts)
    }

    constructor ()
      ensures Valid() && counts == map[]
    {
      counts := map[];
    }

    /** One more consumer for each mention. Returns exactly what became active, once each. */
    method Subscribe(instruments: seq<Instrument>) returns (newlyActive: seq<Instrument>)
      requires Valid()
      modifies this
      ensures Valid()
      ensures forall x :: CountOf(counts, x) == CountOf(old(counts), x) + multiset(instruments)[x]
      ensures forall x :: x in newlyActive <==> x in counts.Keys - old(counts).Keys
      ensures forall m, n :: 0 <= m < n < |newlyActive| ==> newlyActive[m] != newlyActive[n]
    {
      newlyActive := [];
      for n := 0 to |instruments|
        invariant Valid()
        invariant forall x :: CountOf(counts, x) == CountOf(old(counts), x) + multiset(instruments[..n])[x]
        invariant forall x :: x in newlyActive <==> x in counts.Keys - old(counts).Keys
        invariant forall i, j :: 0 <= i < j < |newlyActive| ==> newlyActive[i] != newlyActive[j]
        invariant old(counts).Keys <= counts.Keys
      {
        var instrument := instruments[n];
        assert instruments[..n + 1] == instruments[..n] + [instrument];
        var previous := CountOf(counts, instrument);
        counts := counts[instrument := previous + 1];
        if previous == 0 && instrument !in newlyActive {
          newlyActive := newlyActive + [instrument];
        }
      }
      assert instruments[..|instruments|] == instruments;
    }

    /** One consumer fewer for each mention, never below none. Returns exactly what
        stopped being active, once each. */
    method Unsubscribe(instruments: seq<Instrument>) returns (newlyInactive: seq<Instrument>)
      requires Valid()
      modifies this
      ensures Valid()
      ensures forall x :: CountOf(counts, x) == Less(CountOf(old(counts), x), multiset(instruments)[x])
      ensures forall x :: x in newlyInactive <==> x in old(counts).Keys - counts.Keys
      ensures forall m, n :: 0 <= m < n < |newlyInactive| ==> newlyInactive[m] != newlyInactive[n]
    {
      newlyInactive := [];
      for n := 0 to |instruments|
        invariant Valid()
        invariant forall x :: CountOf(counts, x) == Less(CountOf(old(counts), x), multiset(instruments[..n])[x])
        invariant forall x :: x in newlyInactive <==> x in old(counts).Keys - counts.Keys
        invariant forall i, j :: 0 <= i < j < |newlyInactive| ==> newlyInactive[i] != newlyInactive[j]
        invariant counts.Keys <= old(counts).Keys
      {
        var instrument := instruments[n];
        assert instruments[..n + 1] == instruments[..n] + [instrument];
        var previous := CountOf(counts, instrument);
        if previous == 1 {
          counts := counts - {instrument};
          if instrument !in newlyInactive {
            newlyInactive := newlyInactive + [instrument];
          }
        } else if previous > 1 {
          counts := counts[instrument := previous - 1];
        }
      }
      assert instruments[..|instruments|] == instruments;
    }
  }

  function Less(a: nat, b: nat): nat {
    if a <= b then 0 else a - b
  }

  // ---- Interleaving with the socket ----

  /** What the client thread is in the middle of: it has changed the counts and has
      yet to look whether the socket is up, or has looked and has yet to send. */
  datatype Client = Idle | Counted(sub: bool, delta: set<Instrument>) | Sending(sub: bool, delta: set<Instrument>)

  /** The connect handler: it reads what is active, then subscribes to it. */
  datatype Handler = Done | Called | Holding(active: set<Instrument>)

  datatype World = World(
    active: set<Instrument>, connected: bool, socket: set<Instrument>, client: Client, handler: Handler)

  const Start := World({}, false, {}, Idle, Done)

  datatype Event =
    | Subscribe(added: set<Instrument>) | Unsubscribe(removed: set<Instrument>)
    | Look | Send
    | Connect | Disconnect | Read | Resubscribe

  /** One client thread, and one stream thread that runs its handlers one at a time. */
  predicate Enabled(w: World, e: Event) {
    match e
    case Subscribe(added) => w.client.Idle? && added !! w.active
    case Unsubscribe(removed) => w.client.Idle? && removed <= w.active
    case Look => w.client.Counted?
    case Send => w.client.Sending?
    case Connect => !w.connected && w.handler.Done?
    case Disconnect => w.connected
    case Read => w.handler.Called?
    case Resubscribe => w.handler.Holding?
  }

  /** Sending on a socket that is down fails and changes nothing. */
  function Step(w: World, e: Event): World
    requires Enabled(w, e)
  {
    match e
    case Subscribe(added) => w.(active := w.active + added, client := Counted(true, added))
    case Unsubscribe(removed) => w.(active := w.active - removed, client := Counted(false, removed))
    case Look =>
      w.(client := if w.connected && w.client.delta != {} then Sending(w.client.sub, w.client.delta) else Idle)
    case Send =>
      w.(client := Idle,
         socket := if !w.connected then w.socket
                   else if w.client.sub then w.socket + w.client.delta else w.socket - w.client.delta)
    case Connect => w.(connected := true, socket := {}, handler := Called)
    case Disconnect => w.(connected := false, socket := {})
    case Read => w.(handler := Holding(w.active))
    case Resubscribe => w.(handler := Done, socket := if w.connected then w.socket + w.handler.active else w.socket)
  }

  ghost predicate CanRun(w: World, es: seq<Event>)
    decreases |es|
  {
    es != [] ==> Enabled(w, es[0]) && CanRun(Step(w, es[0]), es[1..])
  }

  ghost function Run(w: World, es: seq<Event>): World
    requires CanRun(w, es)
    decreases |es|
  {
    if es == [] then w else Run(Step(w, es[0]), es[1..])
  }

  /** Somebody has subscribed the instrument, or is bound to. */
  predicate Cared(w: World, x: Instrument) {
    || x in w.socket
    || (!w.client.Idle? && w.client.sub && x in w.client.delta)
    || w.handler.Called?
    || (w.handler.Holding? && x in w.handler.active)
  }

  ghost predicate Sound(w: World) {
    && (w.connected ==> forall x :: x in w.active ==> Cared(w, x))
    && (!w.connected ==> w.socket == {})
    && (!w.client.Idle? ==> if w.client.sub then w.client.delta <= w.active else w.client.delta !! w.active)
  }

  lemma StepIsSound(w: World, e: Event)
    requires Sound(w) && Enabled(w, e)
    ensures Sound(Step(w, e))
  {
    var v := Step(w, e);
    if v.connected {
      forall x | x in v.active ensures Cared(v, x) {
        assert x in w.active && w.connected ==> Cared(w, x);
      }
    }
  }

  lemma {:induction false} RunIsSound(w: World, es: seq<Event>)
    requires Sound(w) && CanRun(w, es)
    ensures Sound(Run(w, es))
    decreases |es|
  {
    if es != [] {
      StepIsSound(w, es[0]);
      RunIsSound(Step(w, es[0]), es[1..]);
    }
  }

  /** Coverage across reconnects: however the client's steps, drops, connects and
      handler steps interleave, whenever the socket is up and nothing is under way,
      every instrument with a consumer is subscribed on it. */
  lemma CoveredWhenQuiet(es: seq<Event>)
    requires CanRun(Start, es)
    ensures var w := Run(Start, es); w.connected && w.client.Idle? && w.handler.Done? ==> w.active <= w.socket
  {
    RunIsSound(Start, es);
    var w := Run(Start, es);
    if w.connected && w.client.Idle? && w.handler.Done? {
      forall x | x in w.active ensures x in w.socket { assert Cared(w, x); }
    }
  }

  // ---- When the socket holds nothing more ----

  /** Somebody uses the instrument, or the client is about to unsubscribe it. */
  predicate Wanted(w: World, x: Instrument) {
    x in w.active || (!w.client.Idle? && !w.client.sub && x in w.client.delta)
  }

  /** The socket is subscribed to an instrument that nobody will take off it. */
  predicate Lingers(w: World, x: Instrument) {
    w.connected && x in w.socket && !Wanted(w, x)
  }

  /** The handler sends what it read before the instrument was unsubscribed. */
  predicate Revives(w: World, e: Event, x: Instrument) {
    e.Resubscribe? && w.connected && w.handler.Holding? && x in w.handler.active && !Wanted(w, x)
  }

  predicate Clears(e: Event, x: Instrument) {
    e.Disconnect? || (e.Subscribe? && x in e.added)
  }

  /** An instrument comes to linger in one way only, and stops in two. */
  lemma LingersStep(w: World, e: Event, x: Instrument)
    requires Sound(w) && Enabled(w, e)
    ensures Lingers(Step(w, e), x) <==> Revives(w, e, x) || (Lingers(w, x) && !Clears(e, x))
  {
  }

  lemma {:induction false} Prefix(w: World, es: seq<Event>, m: nat)
    requires CanRun(w, es) && m <= |es|
    ensures CanRun(w, es[..m])
    decreases m
  {
    if m > 0 {
      assert es[..m][1..] == es[1..][..m - 1];
      Prefix(Step(w, es[0]), es[1..], m - 1);
    }
  }

  /** Before its `m`-th event, the run is about to revive `x`. */
  ghost predicate RevivesAt(w: World, es: seq<Event>, m: nat, x: Instrument) {
    m < |es| && CanRun(w, es[..m]) && Revives(Run(w, es[..m]), es[m], x)
  }

  ghost predicate ClearedAfter(es: seq<Event>, m: int, x: Instrument) {
    exists n :: 0 <= n && m < n < |es| && Clears(es[n], x)
  }

  lemma {:induction false} LingersIff(w: World, es: seq<Event>, x: Instrument)
    requires Sound(w) && CanRun(w, es)
    ensures Lingers(Run(w, es), x)
      <==> (Lingers(w, x) && !ClearedAfter(es, -1, x)) ||
             exists m: nat :: RevivesAt(w, es, m, x) && !ClearedAfter(es, m, x)
    decreases |es|
  {
    if es != [] {
      var v, rest := Step(w, es[0]), es[1..];
      StepIsSound(w, es[0]);
      LingersStep(w, es[0], x);
      LingersIff(v, rest, x);
      forall m: nat ensures RevivesAt(w, es, m + 1, x) <==> RevivesAt(v, rest, m, x) {
        if m < |rest| {
          assert es[..m + 1][1..] == rest[..m] && es[..m + 1][0] == es[0];
        }
      }
      assert es[..0] == [] && (RevivesAt(w, es, 0, x) <==> Revives(w, es[0], x));
      forall m: int | m >= -1 ensures ClearedAfter(es, m + 1, x) <==> ClearedAfter(rest, m, x) {
        if n :| 0 <= n && m < n < |rest| && Clears(rest[n], x) { assert Clears(es[n + 1], x); }
        if n :| 0 <= n && m + 1 < n < |es| && Clears(es[n], x) { assert Clears(rest[n - 1], x); }
      }
      assert ClearedAfter(es, -1, x) <==> Clears(es[0], x) || ClearedAfter(es, 0, x);
      if m: nat :| RevivesAt(w, es, m, x) && !ClearedAfter(es, m, x) {
        if m > 0 { assert RevivesAt(v, rest, m - 1, x); }
      }
      if m: nat :| RevivesAt(v, rest, m, x) && !ClearedAfter(rest, m, x) {
        assert RevivesAt(w, es, m + 1, x);
      }
    } else {
      assert !ClearedAfter(es, -1, x);
    }
  }

  /** When nothing is under way, a connected socket holds exactly what is active if and
      only if every instrument a handler revived after it was unsubscribed has since
      been subscribed again, or the socket dropped. */
  lemma ExactIffNothingRevived(es: seq<Event>)
    requires CanRun(Start, es)
    requires var w := Run(Start, es); w.connected && w.client.Idle? && w.handler.Done?
    ensures Run(Start, es).socket == Run(Start, es).active
      <==> forall m: nat, x :: RevivesAt(Start, es, m, x) ==> ClearedAfter(es, m, x)
  {
    var w := Run(Start, es);
    RunIsSound(Start, es);
    CoveredWhenQuiet(es);
    forall x ensures Lingers(w, x) <==> x in w.socket && x !in w.active {}
    forall x ensures Lingers(w, x) <==> exists m: nat :: RevivesAt(Start, es, m, x) && !ClearedAfter(es, m, x) {
      LingersIff(Start, es, x);
    }
    if forall m: nat, x :: RevivesAt(Start, es, m, x) ==> ClearedAfter(es, m, x) {
      forall x | x in w.socket ensures x in w.active { assert !Lingers(w, x); }
      assert w.socket == w.active;
    } else {
      var m: nat, x :| RevivesAt(Start, es, m, x) && !ClearedAfter(es, m, x);
      assert Lingers(w, x);
    }
  }

  /** Only coverage holds, not equality: a handler that read before an unsubscribe
      and sends after it leaves an instrument subscribed that nobody wants. */
  lemma StaleResubscribeLingers(x: Instrument)
    ensures var es := [Subscribe({x}), Look, Connect, Read, Unsubscribe({x}), Look, Send, Resubscribe];
      CanRun(Start, es) && Run(Start, es) == World({}, true, {x}, Idle, Done)
  {
    var es := [Subscribe({x}), Look, Connect, Read, Unsubscribe({x}), Look, Send, Resubscribe];
    var w1 := World({x}, false, {}, Counted(true, {x}), Done);
    var w2 := World({x}, false, {}, Idle, Done);
    var w3 := World({x}, true, {}, Idle, Called);
    var w4 := World({x}, true, {}, Idle, Holding({x}));
    var w5 := World({}, true, {}, Counted(false, {x}), Holding({x}));
    var w6 := World({}, true, {}, Sending(false, {x}), Holding({x}));
    var w7 := World({}, true, {}, Idle, Holding({x}));
    var w8 := World({}, true, {x}, Idle, Done);
    assert w4.active - {x} == {};
    RunsThrough(Start, es, [Start, w1, w2, w3, w4, w5, w6, w7, w8]);
  }

  lemma {:induction false} RunsThrough(w: World, es: seq<Event>, states: seq<World>)
    requires |states| == |es| + 1 && states[0] == w
    requires forall n :: 0 <= n < |es| ==> Enabled(states[n], es[n]) && states[n + 1] == Step(states[n], es[n])
    ensures CanRun(w, es) && Run(w, es) == states[|es|]
    decreases |es|
  {
    if es != [] {
      RunsThrough(states[1], es[1..], states[1..]);
    }
  }

  // ---- The service, one call at a time ----

  class MarketDataService {
    const subscriptions: SubscriptionManager
    var connected: bool
    /** What the current socket is subscribed to. */
    var socket: set<Instrument>
    var cache: map<Instrument, real>

    /** When calls and handlers do not overlap, the socket holds exactly what is active. */
    ghost predicate Valid()
      reads this, subscriptions
    {
      subscriptions.Valid() && socket == if connected then subscriptions.counts.Keys else {}
    }

    constructor ()
      ensures Valid() && fresh(subscriptions) && !connected && subscriptions.counts == map[] && cache == map[]
    {
      subscriptions := new SubscriptionManager();
      connected, socket, cache := false, {}, map[];
    }

    method Subscribe(instruments: seq<Instrument>)
      requires Valid()
      modifies this, subscriptions
      ensures Valid() && connected == old(connected) && cache == old(cache)
      ensures forall x ::
        CountOf(subscriptions.counts, x) == CountOf(old(subscriptions.counts), x) + multiset(instruments)[x]
    {
      var newlyActive := subscriptions.Subscribe(instruments);
      OnlyGrows(old(subscriptions.counts), subscriptions.counts, multiset(instruments));
      assert subscriptions.counts.Keys == old(subscriptions.counts).Keys + set x | x in newlyActive;
      if newlyActive != [] && connected {
        socket := socket + set x | x in newlyActive;
      }
    }

    /** Drops the cached price of exactly what nobody needs any more. */
    method Unsubscribe(instruments: seq<Instrument>)
      requires Valid()
      modifies this, subscriptions
      ensures Valid() && connected == old(connected)
      ensures forall x ::
        CountOf(subscriptions.counts, x) == Less(CountOf(old(subscriptions.counts), x), multiset(instruments)[x])
      ensures cache == old(cache) - (old(subscriptions.counts).Keys - subscriptions.counts.Keys)
    {
      var newlyInactive := subscriptions.Unsubscribe(instruments);
      OnlyShrinks(old(subscriptions.counts), subscriptions.counts, multiset(instruments));
      assert subscriptions.counts.Keys == old(subscriptions.counts).Keys - set x | x in newlyInactive;
      if newlyInactive != [] {
        if connected {
          socket := socket - set x | x in newlyInactive;
        }
        Forget(newlyInactive);
      }
    }

    method Forget(instruments: seq<Instrument>)
      modifies this`cache
      ensures cache == old(cache) - set x | x in instruments
    {
      for n := 0 to |instruments|
        invariant cache == old(cache) - set x | x in instruments[..n]
      {
        assert instruments[..n + 1] == instruments[..n] + [instruments[n]];
        cache := cache - {instruments[n]};
      }
      assert instruments[..|instruments|] == instruments;
    }

    /** A fresh socket, then the handler's wholesale resubscription. */
    method OnConnect()
      requires Valid() && !connected
      modifies this`connected, this`socket
      ensures Valid() && connected
    {
      connected, socket := true, {};
      var active := subscriptions.counts.Keys;
      if active != {} {
        socket := socket + active;
      }
    }

    method OnDisconnect()
      requires Valid()
      modifies this`connected, this`socket
      ensures Valid() && !connected
    {
      connected, socket := false, {};
    }
  }

  lemma OnlyGrows(before: Counts, after: Counts, mentions: multiset<Instrument>)
    requires Positive(before) && Positive(after)
    requires forall x :: CountOf(after, x) == CountOf(before, x) + mentions[x]
    ensures before.Keys <= after.Keys
  {
    forall x | x in before ensures x in after { assert CountOf(before, x) > 0; }
  }

  lemma OnlyShrinks(before: Counts, after: Counts, mentions: multiset<Instrument>)
    requires Positive(before) && Positive(after)
    requires forall x :: CountOf(after, x) == Less(CountOf(before, x), mentions[x])
    ensures after.Keys <= before.Keys
  {
    forall x | x in after ensures x in before { assert CountOf(after, x) > 0; }
  }
}
