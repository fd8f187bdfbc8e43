// The collector's parts as objects: the window manager, the tick stream and the
// service that drives both through a session.

module Collector {
  import opened Broker
  import opened AtmWindow

  datatype Diff = Diff(atm: real, toSubscribe: seq<Token>, toUnsubscribe: seq<Token>, newInstruments: seq<Ref>)

  function Tokens(s: seq<Token>): set<Token> {
    set t | t in s
  }

  lemma TokensSnoc(s: seq<Token>, t: Token)
    ensures Tokens(s + [t]) == Tokens(s) + {t}
  {
    forall x | x in s ensures x in s + [t] {}
  }

  lemma TokensAt(s: seq<Token>)
    ensures forall i :: 0 <= i < |s| ==> s[i] in Tokens(s)
    ensures Tokens(s) == {} <==> s == []
  {
    if s != [] {
      assert s[0] in Tokens(s);
    }
  }

  lemma NoneLeft(a: set<Token>, b: set<Token>)
    ensures a <= b <==> a - b == {}
  {
    if a - b == {} {
      forall t | t in a ensures t in b { assert t !in a - b; }
    }
  }

  ghost predicate NoRepeats(s: seq<Token>) {
    forall m, n :: 0 <= m < n < |s| ==> s[m] != s[n]
  }

  class AtmWindowManager {
    const n: nat
    var current: map<string, map<Token, Ref>>
    var atm: map<string, real>

    constructor (n: nat)
      ensures this.n == n && current == map[] && atm == map[]
    {
      this.n, current, atm := n, map[], map[];
    }

    ghost function Windows(): map<string, set<Token>>
      reads this
    {
      map u | u in current :: current[u].Keys
    }

    method Reset()
      modifies this
      ensures current == map[] && Windows() == map[] && atm == map[]
    {
      current, atm := map[], map[];
    }

    method Target(underlying: string, money: real, interval: real, chain: Chain) returns (target: map<Token, Ref>)
      ensures IsWindow(target, underlying, chain, money, interval, 0 - n, n + 1)
    {
      target := map[];
      for k := 0 - n to n + 1
        invariant IsWindow(target, underlying, chain, money, interval, 0 - n, k)
      {
        var strike := money + interval * k as real;
        WindowGrows(target, underlying, chain, money, interval, 0 - n, k);
        if strike in chain {
          target := WithLeg(target, underlying, strike, CE, chain[strike]);
          target := WithLeg(target, underlying, strike, PE, chain[strike]);
        }
      }
    }

    method NotIn(keys: set<Token>, other: set<Token>) returns (out: seq<Token>)
      ensures Tokens(out) == keys - other && NoRepeats(out)
    {
      out := [];
      var left := keys;
      while left != {}
        invariant left <= keys && Tokens(out) == keys - left - other && NoRepeats(out)
        decreases left
      {
        var t :| t in left;
        left := left - {t};
        if t !in other {
          assert t !in Tokens(out);
          TokensSnoc(out, t);
          out := out + [t];
        }
      }
    }

    /** Move the window to the money and say exactly what changed. Without a usable
        price nothing changes. */
    method Recompute(underlying: string, spot: Option<real>, interval: real, chain: Chain) returns (diff: Option<Diff>)
      modifies this
      ensures diff.None? <==> spot.None? || AtmStrike(spot.value, interval).None?
      ensures diff.None? ==> current == old(current) && atm == old(atm)
      ensures diff.Some? ==>
        underlying in current && diff.value.atm == AtmStrike(spot.value, interval).value &&
        atm == old(atm)[underlying := diff.value.atm] &&
        current == old(current)[underlying := current[underlying]] &&
        IsWindow(current[underlying], underlying, chain, diff.value.atm, interval, 0 - n, n + 1)
      ensures diff.Some? ==> Exact(diff.value, WindowOf(old(Windows()), underlying), current[underlying])
    {
      if spot.None? {
        return None;
      }
      var money := AtmStrike(spot.value, interval);
      if money.None? {
        return None;
      }
      var target := Target(underlying, money.value, interval, chain);
      var previous := if underlying in current then current[underlying] else map[];
      var toSubscribe := NotIn(target.Keys, previous.Keys);
      var toUnsubscribe := NotIn(previous.Keys, target.Keys);
      TokensAt(toSubscribe);
      var added := seq(|toSubscribe|, i requires 0 <= i < |toSubscribe| => target[toSubscribe[i]]);
      current, atm := current[underlying := target], atm[underlying := money.value];
      return Some(Diff(money.value, toSubscribe, toUnsubscribe, added));
    }
  }

  /** The diff names each token that came or went exactly once, with its contract. */
  ghost predicate Exact(d: Diff, before: set<Token>, after: map<Token, Ref>) {
    && Tokens(d.toSubscribe) == after.Keys - before && NoRepeats(d.toSubscribe)
    && Tokens(d.toUnsubscribe) == before - after.Keys && NoRepeats(d.toUnsubscribe)
    && |d.newInstruments| == |d.toSubscribe|
    && forall m :: 0 <= m < |d.toSubscribe| ==>
      d.toSubscribe[m] in after && d.newInstruments[m] == after[d.toSubscribe[m]]
  }

  class CollectorTickStream {
    /** A socket object exists; it has reported itself connected; it gave up for good. */
    var ticker: bool
    var connected: bool
    var dead: bool
    var subscribed: set<Token>
    /** What that socket object is subscribed to. */
    var socket: set<Token>

    ghost function State(): Stream
      reads this
    {
      Stream(ticker, connected, dead, subscribed, socket)
    }

    /** A connected socket exists and holds exactly what is intended; any other holds nothing. */
    ghost predicate Valid()
      reads this
    {
      (connected ==> ticker) && socket == if connected then subscribed else {}
    }

    constructor ()
      ensures Valid() && State() == Stream(false, false, false, {}, {})
    {
      ticker, connected, dead, subscribed, socket := false, false, false, {}, {};
    }

    method Start()
      requires Valid()
      modifies this
      ensures Valid() && State() == StartStream(old(State()))
      ensures ticker && subscribed == old(subscribed) && (!old(ticker) ==> !connected && !dead && socket == {})
    {
      if ticker {
        return;
      }
      Spawn();
    }

    method Spawn()
      requires Valid() && !connected
      modifies this
      ensures Valid() && State() == old(State()).(up := true, dead := false, socket := {})
    {
      dead := false;
      ticker, socket := true, {};
    }

    /** A brand-new socket; the intended set is kept for it. */
    method Restart()
      requires Valid()
      modifies this
      ensures Valid() && State() == RestartStream(old(State()))
      ensures ticker && !connected && !dead && socket == {} && subscribed == old(subscribed)
    {
      ticker, connected, socket := false, false, {};
      Spawn();
    }

    method Stop()
      modifies this
      ensures Valid() && State() == StopStream(old(State()))
      ensures !ticker && !connected && !dead && socket == {} && subscribed == {}
    {
      ticker, connected, subscribed, dead, socket := false, false, {}, false, {};
    }

    method Subscribe(tokens: seq<Token>)
      requires Valid()
      modifies this
      ensures Valid() && State() == SubscribeTo(old(State()), Tokens(tokens))
      ensures subscribed == old(subscribed) + Tokens(tokens) && (connected ==> socket == subscribed)
    {
      if tokens == [] {
        assert subscribed + Tokens(tokens) == subscribed && socket + Tokens(tokens) == socket;
        return;
      }
      subscribed := subscribed + Tokens(tokens);
      if ticker && connected {
        socket := socket + Tokens(tokens);
      }
    }

    method Unsubscribe(tokens: seq<Token>)
      requires Valid()
      modifies this
      ensures Valid() && State() == UnsubscribeFrom(old(State()), Tokens(tokens))
      ensures subscribed == old(subscribed) - Tokens(tokens) && (connected ==> socket == subscribed)
    {
      if tokens == [] {
        assert subscribed - Tokens(tokens) == subscribed && socket - Tokens(tokens) == socket;
        return;
      }
      subscribed := subscribed - Tokens(tokens);
      if ticker && connected {
        socket := socket - Tokens(tokens);
      }
    }

    /** The socket forgot everything while it was down; tell it all that is intended. */
    method HandleConnect()
      requires Valid() && ticker && !connected
      modifies this
      ensures Valid() && connected && State() == Connected(old(State()))
      ensures !dead && subscribed == old(subscribed) == socket
    {
      connected, dead := true, false;
      if subscribed != {} {
        socket := socket + subscribed;
      }
    }

    method HandleClose(forGood: bool)
      modifies this
      ensures Valid() && !connected && State() == Dropped(old(State()), forGood)
      ensures dead == (old(dead) || forGood) && subscribed == old(subscribed) && socket == {}
    {
      connected, socket := false, {};
      if forGood {
        dead := true;
      }
    }
  }

  /** What one recompute of an underlying meets: its price, its chain, and whether
      new contracts can be recorded. */
  datatype Feed = Feed(spot: Option<real>, interval: real, chain: Chain, recorded: bool)

  /** Every token of the chain belongs to the underlying. */
  ghost predicate OwnChain(chain: Chain, underlying: string, owner: Token -> string) {
    forall strike, o :: strike in chain && chain[strike].At(o).Some? ==>
      owner(chain[strike].At(o).value.token) == underlying
  }

  lemma OwnWindow(
      window: map<Token, Ref>, underlying: string, chain: Chain, atm: real, interval: real, lo: int, hi: int,
      owner: Token -> string)
    requires IsWindow(window, underlying, chain, atm, interval, lo, hi) && OwnChain(chain, underlying, owner)
    ensures forall t :: t in window ==> owner(t) == underlying
  {
    forall t | t in window ensures owner(t) == underlying {
      var ref := window[t];
      assert Lists(chain, atm, interval, lo, hi, ref);
      assert ref.strike in chain && chain[ref.strike].At(ref.option).Some?;
    }
  }

  class CollectorService {
    const manager: AtmWindowManager
    const stream: CollectorTickStream
    var phase: Phase

    ghost function State(): World
      reads this, manager, stream
    {
      World(phase, manager.Windows(), stream.State())
    }

    ghost predicate Valid(owner: Token -> string)
      reads this, manager, stream
    {
      Sound(State(), owner)
    }

    constructor (n: nat)
      ensures State() == Initial && manager.n == n && fresh(manager) && fresh(stream)
    {
      manager := new AtmWindowManager(n);
      stream := new CollectorTickStream();
      phase := Unknown;
    }

    /** Follow the session. Agreement is kept by every change of phase but one: opening
        a session over a subscription that was never closed. */
    method OnPhase(next: Phase, ghost owner: Token -> string)
      requires Valid(owner) && !next.Unknown?
      modifies this, manager, stream
      ensures State() == EnterPhase(old(State()), next)
      ensures next == old(phase) || !next.Connect? || Resting(old(phase)) ==> Valid(owner)
      ensures next != old(phase) && next.Connect? ==> (Agrees(State()) <==> old(stream.subscribed) == {})
      ensures phase == next
      ensures next != old(phase) && next.Connect? ==> manager.current == map[] && stream.ticker
      ensures next != old(phase) && (next.Closed? || next.PreOpen?) ==>
        manager.current == map[] && !stream.ticker && !stream.connected && stream.subscribed == {}
      ensures next == old(phase) || !(next.Connect? || next.Closed? || next.PreOpen?) ==>
        manager.current == old(manager.current) && stream.State() == old(stream.State())
    {
      ghost var before := State();
      if next == phase {
        return;
      }
      phase := next;
      if next.Connect? {
        manager.Reset();
        stream.Start();
        JumpKeepsAgreementIff(before);
      } else if next.Closed? || next.PreOpen? {
        stream.Stop();
        manager.Reset();
      }
      if !next.Connect? || Resting(before.phase) {
        StepAgrees(before, Enter(next), owner);
      }
    }

    /** The watchdog's rebuild of a dead or silent socket. */
    method RestartStream(ghost owner: Token -> string)
      requires Valid(owner)
      modifies stream
      ensures Valid(owner) && State() == old(State()).(stream := AtmWindow.RestartStream(old(stream.State())))
    {
      stream.Restart();
    }

    /** Recompute one underlying and apply the diff. The upsert's failure escapes. */
    method RecomputeOne(underlying: string, feed: Feed) returns (raised: bool, ghost window: Option<map<Token, Ref>>)
      requires stream.Valid()
      modifies manager, stream
      ensures stream.Valid()
      ensures window.None? <==> feed.spot.None? || AtmStrike(feed.spot.value, feed.interval).None?
      ensures window.None? ==> State() == old(State()) && !raised
      ensures window.Some? ==>
        IsWindow(window.value, underlying, feed.chain, AtmStrike(feed.spot.value, feed.interval).value, feed.interval,
                 0 - manager.n, manager.n + 1)
      ensures window.Some? ==>
        State() == Recompute(old(State()), underlying, window.value.Keys, feed.recorded) &&
        raised == (!feed.recorded && !(window.value.Keys <= WindowOf(old(State()).windows, underlying)))
    {
      raised, window := false, None;
      ghost var before := manager.Windows();
      var diff := manager.Recompute(underlying, feed.spot, feed.interval, feed.chain);
      if diff.None? {
        return;
      }
      window := Some(manager.current[underlying]);
      assert manager.Windows() == before[underlying := window.value.Keys];
      NoneLeft(window.value.Keys, WindowOf(before, underlying));
      raised := Apply(diff.value, feed.recorded);
    }

    /** One pass over all underlyings. An underlying without a price is passed over; a
        failed upsert ends the pass. The stream still intends exactly the union of the
        windows unless one did, and none does when every upsert succeeds. */
    method RecomputeAll(
        underlyings: seq<string>, feeds: string -> Feed, ghost owner: Token -> string) returns (raised: bool)
      requires Valid(owner) && phase.Collect? && forall u :: u in underlyings ==> OwnChain(feeds(u).chain, u, owner)
      modifies manager, stream
      ensures (forall u :: u in underlyings ==> feeds(u).recorded) ==> Valid(owner) && !raised
      ensures raised ==> exists u :: u in underlyings && !feeds(u).recorded
      ensures (Agrees(State()) <==> !raised) && (!raised ==> Valid(owner))
    {
      for i := 0 to |underlyings|
        invariant Valid(owner) && stream.Valid() && phase.Collect?
      {
        var u := underlyings[i];
        ghost var before := State();
        ghost var window;
        raised, window := RecomputeOne(u, feeds(u));
        if window.Some? {
          OwnWindow(window.value, u, feeds(u).chain, AtmStrike(feeds(u).spot.value, feeds(u).interval).value,
            feeds(u).interval, 0 - manager.n, manager.n + 1, owner);
          RotateAgreesUnlessRaised(before, u, window.value.Keys, feeds(u).recorded, owner);
        }
        if raised {
          return;
        }
      }
      raised := false;
    }

    method Apply(d: Diff, recorded: bool) returns (raised: bool)
      requires |d.newInstruments| == |d.toSubscribe| && stream.Valid()
      modifies stream
      ensures stream.Valid()
      ensures raised == (Tokens(d.toSubscribe) != {} && !recorded)
      ensures stream.State() == if raised then old(stream.State())
        else SubscribeTo(UnsubscribeFrom(old(stream.State()), Tokens(d.toUnsubscribe)), Tokens(d.toSubscribe))
    {
      TokensAt(d.toSubscribe);
      if d.newInstruments != [] && !recorded {
        return true;
      }
      stream.Unsubscribe(d.toUnsubscribe);
      stream.Subscribe(d.toSubscribe);
      return false;
    }
  }
}
