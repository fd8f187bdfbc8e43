// Rotating ATM windows over a rebuildable socket: each underlying's window of
// option tokens, the stream's intended set, and what keeps the two in agreement
// over phases, recomputes and watchdog restarts.

module AtmWindow {
  import opened Broker

  datatype Token = Token(number: int)

  // ---- The window of one underlying ----

  datatype OptionType = CE | PE

  datatype Leg = Leg(symbol: string, token: Token)

  /** The legs listed at one strike. */
  datatype Legs = Legs(ce: Option<Leg>, pe: Option<Leg>) {
    function At(o: OptionType): Option<Leg> {
      if o.CE? then ce else pe
    }
  }

  type Chain = map<real, Legs>

  datatype Ref = Ref(token: Token, underlying: string, strike: real, option: OptionType, symbol: string)

  /** The multiple of the interval nearest to the spot, ties rounding up. */
  function AtmStrike(spot: real, interval: real): (r: Option<real>)
    ensures r.None? <==> spot <= 0.0 || interval <= 0.0
  {
    if spot <= 0.0 || interval <= 0.0 then None else Some((spot / interval + 0.5).Floor as real * interval)
  }

  predicate MultipleOf(x: real, interval: real, k: int) {
    x == k as real * interval
  }

  lemma AtmIsNearest(spot: real, interval: real)
    requires spot > 0.0 && interval > 0.0
    ensures var atm := AtmStrike(spot, interval).value;
      (exists k :: MultipleOf(atm, interval, k)) && atm - interval / 2.0 <= spot < atm + interval / 2.0
  {
    var q := spot / interval;
    assert MultipleOf(AtmStrike(spot, interval).value, interval, (q + 0.5).Floor);
    Between(AtmStrike(spot, interval).value, (q + 0.5).Floor as real, q, spot, interval);
  }

  lemma Between(atm: real, k: real, q: real, spot: real, interval: real)
    requires interval > 0.0 && k <= q + 0.5 < k + 1.0 && q * interval == spot && k * interval == atm
    ensures atm - interval / 2.0 <= spot < atm + interval / 2.0
  {
    Spread(k, interval);
    Scaled(k - 0.5, q, interval, atm - interval / 2.0, spot);
    Scaled(q, k + 0.5, interval, spot, atm + interval / 2.0);
  }

  lemma Spread(k: real, interval: real)
    ensures (k - 0.5) * interval == k * interval - interval / 2.0
    ensures (k + 0.5) * interval == k * interval + interval / 2.0
  {
  }

  lemma Scaled(x: real, y: real, t: real, xt: real, yt: real)
    requires t > 0.0 && x <= y && xt == x * t && yt == y * t
    ensures xt <= yt && (x < y ==> xt < yt)
  {
    assert x < y ==> (y - x) * t > 0.0;
  }

  /** The contract is listed on a strike `k` intervals from the money, `lo <= k < hi`. */
  ghost predicate Lists(chain: Chain, atm: real, interval: real, lo: int, hi: int, ref: Ref) {
    exists k: int :: lo <= k < hi && OnStrike(chain, atm, interval, k, ref)
  }

  predicate OnStrike(chain: Chain, atm: real, interval: real, k: int, ref: Ref) {
    ref.strike == atm + interval * k as real && ref.strike in chain &&
    chain[ref.strike].At(ref.option) == Some(Leg(ref.symbol, ref.token))
  }

  /** The window holds a contract for every token listed on its strikes, and no other. */
  ghost predicate IsWindow(
      target: map<Token, Ref>, underlying: string, chain: Chain, atm: real, interval: real, lo: int, hi: int) {
    && (forall token :: token in target ==> target[token].token == token && target[token].underlying == underlying)
    && (forall token :: token in target ==> Lists(chain, atm, interval, lo, hi, target[token]))
    && (forall ref: Ref :: Lists(chain, atm, interval, lo, hi, ref) ==> ref.token in target)
  }

  function WithLeg(
      target: map<Token, Ref>, underlying: string, strike: real, option: OptionType, legs: Legs): map<Token, Ref> {
    match legs.At(option)
    case None => target
    case Some(leg) => target[leg.token := Ref(leg.token, underlying, strike, option, leg.symbol)]
  }

  lemma WindowGrows(
      target: map<Token, Ref>, underlying: string, chain: Chain, atm: real, interval: real, lo: int, k: int)
    requires lo <= k && IsWindow(target, underlying, chain, atm, interval, lo, k)
    ensures var strike := atm + interval * k as real;
      IsWindow(
        if strike in chain
          then WithLeg(WithLeg(target, underlying, strike, CE, chain[strike]), underlying, strike, PE, chain[strike])
          else target,
        underlying, chain, atm, interval, lo, k + 1)
  {
    var strike := atm + interval * k as real;
    forall ref | Lists(chain, atm, interval, lo, k + 1, ref)
      ensures Lists(chain, atm, interval, lo, k, ref) || OnStrike(chain, atm, interval, k, ref) {}
    forall ref | Lists(chain, atm, interval, lo, k, ref) || OnStrike(chain, atm, interval, k, ref)
      ensures Lists(chain, atm, interval, lo, k + 1, ref) {}
    if strike in chain {
      forall o | chain[strike].At(o).Some?
        ensures var leg := chain[strike].At(o).value;
          OnStrike(chain, atm, interval, k, Ref(leg.token, underlying, strike, o, leg.symbol)) {}
    }
  }

  // ---- Diffs ----

  /** Whatever else takes one window to the next does at least what the diff does. */
  lemma DiffIsMinimal(current: set<Token>, target: set<Token>, added: set<Token>, removed: set<Token>)
    ensures var (subscribe, unsubscribe) := (target - current, current - target);
      && current - unsubscribe + subscribe == target && subscribe !! unsubscribe
      && (current - removed + added == target ==> subscribe <= added && unsubscribe <= removed)
  {
  }

  // ---- The collector as a whole ----

  datatype Phase = Unknown | PreOpen | Connect | Collect | Freeze | Flush | Closed

  /** `intended` is what the stream will subscribe on connect; `socket` what the
      current socket is subscribed to. */
  datatype Stream = Stream(up: bool, connected: bool, dead: bool, intended: set<Token>, socket: set<Token>)

  datatype World = World(phase: Phase, windows: map<string, set<Token>>, stream: Stream)

  const Initial := World(Unknown, map[], Stream(false, false, false, {}, {}))

  function StartStream(s: Stream): Stream {
    if s.up then s else s.(up := true, connected := false, dead := false, socket := {})
  }

  function StopStream(s: Stream): Stream {
    Stream(false, false, false, {}, {})
  }

  function RestartStream(s: Stream): Stream {
    s.(up := true, connected := false, dead := false, socket := {})
  }

  function SubscribeTo(s: Stream, tokens: set<Token>): Stream {
    s.(intended := s.intended + tokens, socket := if s.up && s.connected then s.socket + tokens else s.socket)
  }

  function UnsubscribeFrom(s: Stream, tokens: set<Token>): Stream {
    s.(intended := s.intended - tokens, socket := if s.up && s.connected then s.socket - tokens else s.socket)
  }

  /** A fresh socket comes up knowing nothing, and is told everything intended. */
  function Connected(s: Stream): Stream {
    s.(connected := true, dead := false, socket := s.intended)
  }

  function Dropped(s: Stream, forGood: bool): Stream {
    s.(connected := false, dead := s.dead || forGood, socket := {})
  }

  function WindowOf(windows: map<string, set<Token>>, u: string): set<Token> {
    if u in windows then windows[u] else {}
  }

  function EnterPhase(w: World, phase: Phase): World {
    if phase == w.phase then w
    else
      match phase
      case Connect => World(phase, map[], StartStream(w.stream))
      case Closed => World(phase, map[], StopStream(w.stream))
      case PreOpen => World(phase, map[], StopStream(w.stream))
      case _ => w.(phase := phase)
  }

  /** Move one underlying's window. When recording new contracts fails, the window has
      moved but the stream is not told. */
  function Recompute(w: World, u: string, target: set<Token>, recorded: bool): World {
    var current := WindowOf(w.windows, u);
    var (added, removed) := (target - current, current - target);
    var moved := w.(windows := w.windows[u := target]);
    if added != {} && !recorded then moved
    else moved.(stream := SubscribeTo(UnsubscribeFrom(w.stream, removed), added))
  }

  datatype Event =
    | Enter(phase: Phase)
    | Rotate(underlying: string, target: set<Token>, recorded: bool)
    | Restart | Up | Down(forGood: bool)

  /** Windows rotate only while collecting; the watchdog restarts only while a socket
      is expected; a token belongs to one underlying. */
  predicate Enabled(w: World, e: Event, owner: Token -> string) {
    match e
    case Enter(phase) => !phase.Unknown?
    case Rotate(u, target, _) => w.phase.Collect? && forall t :: t in target ==> owner(t) == u
    case Restart => w.phase.Connect? || w.phase.Collect? || w.phase.Freeze?
    case Up => w.stream.up && !w.stream.connected
    case Down(_) => w.stream.up
  }

  function Step(w: World, e: Event): World {
    match e
    case Enter(phase) => EnterPhase(w, phase)
    case Rotate(u, target, recorded) => Recompute(w, u, target, recorded)
    case Restart => w.(stream := RestartStream(w.stream))
    case Up => w.(stream := Connected(w.stream))
    case Down(forGood) => w.(stream := Dropped(w.stream, forGood))
  }

  predicate Resting(phase: Phase) {
    phase.Unknown? || phase.PreOpen? || phase.Closed?
  }

  /** A session opens only after the last one closed, and every upsert succeeds. */
  predicate Orderly(w: World, e: Event) {
    match e
    case Enter(phase) => phase.Connect? && w.phase != Connect ==> Resting(w.phase)
    case Rotate(_, _, recorded) => recorded
    case _ => true
  }

  ghost predicate CanRun(w: World, es: seq<Event>, owner: Token -> string)
    decreases |es|
  {
    es != [] ==> Enabled(w, es[0], owner) && CanRun(Step(w, es[0]), es[1..], owner)
  }

  ghost predicate RunsOrderly(w: World, es: seq<Event>)
    decreases |es|
  {
    es != [] ==> Orderly(w, es[0]) && RunsOrderly(Step(w, es[0]), es[1..])
  }

  function Run(w: World, es: seq<Event>): World
    decreases |es|
  {
    if es == [] then w else Run(Step(w, es[0]), es[1..])
  }

  // ---- Agreement ----

  /** The stream intends exactly the union of the current windows. */
  ghost predicate Agrees(w: World) {
    forall t :: t in w.stream.intended <==> InSomeWindow(w.windows, t)
  }

  ghost predicate InSomeWindow(windows: map<string, set<Token>>, t: Token) {
    exists u :: u in windows && t in windows[u]
  }

  ghost predicate Owned(windows: map<string, set<Token>>, owner: Token -> string) {
    forall u, t :: u in windows && t in windows[u] ==> owner(t) == u
  }

  ghost predicate Sound(w: World, owner: Token -> string) {
    && Agrees(w) && Owned(w.windows, owner)
    && w.stream.socket == (if w.stream.connected then w.stream.intended else {})
    && (w.stream.connected ==> w.stream.up)
    && (Resting(w.phase) ==> w.windows == map[] && w.stream.intended == {})
  }

  lemma OwnerDecides(w: World, t: Token, owner: Token -> string)
    requires Owned(w.windows, owner)
    ensures InSomeWindow(w.windows, t) <==> t in WindowOf(w.windows, owner(t))
  {
  }

  lemma RotateAgrees(w: World, u: string, target: set<Token>, owner: Token -> string)
    requires Sound(w, owner) && Enabled(w, Rotate(u, target, true), owner)
    ensures Sound(Recompute(w, u, target, true), owner)
  {
    var v := Recompute(w, u, target, true);
    assert Owned(v.windows, owner);
    forall t ensures t in v.stream.intended <==> InSomeWindow(v.windows, t) {
      OwnerDecides(w, t, owner);
      OwnerDecides(v, t, owner);
    }
  }

  lemma StepAgrees(w: World, e: Event, owner: Token -> string)
    requires Sound(w, owner) && Enabled(w, e, owner) && Orderly(w, e)
    ensures Sound(Step(w, e), owner)
  {
    if e.Rotate? {
      RotateAgrees(w, e.underlying, e.target, owner);
    }
  }

  /** Over every orderly run the stream intends exactly the union of the windows, and
      a connected socket is subscribed to exactly that, whatever drops, restarts and
      reconnects came in between. */
  lemma {:induction false} RunAgrees(w: World, es: seq<Event>, owner: Token -> string)
    requires Sound(w, owner) && CanRun(w, es, owner) && RunsOrderly(w, es)
    ensures Sound(Run(w, es), owner)
    decreases |es|
  {
    if es != [] {
      StepAgrees(w, es[0], owner);
      RunAgrees(Step(w, es[0]), es[1..], owner);
    }
  }

  lemma EveryRunAgrees(es: seq<Event>, owner: Token -> string)
    requires CanRun(Initial, es, owner) && RunsOrderly(Initial, es)
    ensures var w := Run(Initial, es);
      Agrees(w) && (w.stream.connected ==> forall t :: t in w.stream.socket <==> InSomeWindow(w.windows, t))
  {
    RunAgrees(Initial, es, owner);
  }

  lemma Member(s: set<Token>) returns (t: Token)
    requires s != {}
    ensures t in s
  {
    t :| t in s;
  }

  /** Outside a session nothing is left of it, and from its opening a socket is wanted. */
  ghost predicate InPhase(w: World) {
    && (w.phase.PreOpen? || w.phase.Closed? ==> w.windows == map[] && w.stream == Initial.stream)
    && (w.phase.Unknown? ==> w == Initial)
    && (w.phase.Connect? ==> w.stream.up)
  }

  lemma {:induction false} RunInPhase(w: World, es: seq<Event>, owner: Token -> string)
    requires InPhase(w) && CanRun(w, es, owner)
    ensures InPhase(Run(w, es))
    decreases |es|
  {
    if es != [] {
      RunInPhase(Step(w, es[0]), es[1..], owner);
    }
  }

  /** Whatever the run: before the market opens and after it closes there is no window,
      no socket and nothing intended; and once a session has opened there is a socket. */
  lemma SessionsEndEmpty(es: seq<Event>, owner: Token -> string)
    requires CanRun(Initial, es, owner)
    ensures InPhase(Run(Initial, es))
  {
    RunInPhase(Initial, es, owner);
  }

  /** A restart, or a session opened without a socket, makes a fresh one that has not come
      up; a socket goes with the session; and nothing else makes or removes one. */
  lemma SocketStep(w: World, e: Event)
    ensures var (s, v) := (w.stream, Step(w, e).stream);
      match e
      case Restart => v.up && !v.connected && v.socket == {} && v.intended == s.intended
      case Up => v.connected && v.up == s.up && v.intended == s.intended
      case Down(_) => !v.connected && v.up == s.up && v.intended == s.intended
      case Rotate(_, _, _) => v.up == s.up && v.connected == s.connected
      case Enter(phase) =>
        if phase != w.phase && (phase.PreOpen? || phase.Closed?) then !v.up && !v.connected
        else if phase != w.phase && phase.Connect? && !s.up then
          v.up && !v.connected && v.socket == {} && v.intended == s.intended
        else v == s
  {
  }

  /** The stream is dead exactly when its last socket was lost for good and none has
      been started or has come up since. */
  lemma DeadStep(w: World, e: Event)
    ensures Step(w, e).stream.dead <==>
      match e
      case Down(forGood) => forGood || w.stream.dead
      case Up => false
      case Restart => false
      case Rotate(_, _, _) => w.stream.dead
      case Enter(phase) =>
        w.stream.dead &&
        (phase == w.phase || !(phase.PreOpen? || phase.Closed? || (phase.Connect? && !w.stream.up)))
  {
  }

  /** Opening a session without closing the last one forgets the windows but not the
      intended set: it keeps agreement exactly when nothing was subscribed. */
  lemma JumpKeepsAgreementIff(w: World)
    requires w.phase != Connect
    ensures Agrees(EnterPhase(w, Connect)) <==> w.stream.intended == {}
  {
    var v := EnterPhase(w, Connect);
    assert forall t :: !InSomeWindow(v.windows, t);
    if v.stream.intended != {} {
      var t := Member(v.stream.intended);
      assert !InSomeWindow(v.windows, t);
    }
  }

  /** A rotation keeps agreement exactly when its new contracts, if any, are recorded:
      otherwise its additions are never sent, and repeating it changes nothing. */
  lemma UpsertFailureBreaks(w: World, u: string, target: set<Token>, recorded: bool, owner: Token -> string)
    requires Sound(w, owner) && Enabled(w, Rotate(u, target, recorded), owner)
    ensures var v := Recompute(w, u, target, recorded);
      && (Agrees(v) <==> recorded || target <= WindowOf(w.windows, u))
      && Recompute(v, u, target, true) == v
  {
    var v := Recompute(w, u, target, recorded);
    assert Recompute(v, u, target, true).stream.intended == v.stream.intended;
    assert v.stream.connected ==> v.stream.socket + {} - {} == v.stream.socket;
    if recorded || target <= WindowOf(w.windows, u) {
      assert target <= WindowOf(w.windows, u) ==> target - WindowOf(w.windows, u) == {};
      assert v == Recompute(w, u, target, true);
      RotateAgrees(w, u, target, owner);
    } else {
      var t := Member(target - WindowOf(w.windows, u));
      OwnerDecides(w, t, owner);
      assert t !in v.stream.intended;
      assert InSomeWindow(v.windows, t) by { assert t in v.windows[u]; }
    }
  }

  /** So a rotation whose upsert does not raise, succeeding or having nothing new to
      record, keeps everything sound, and one whose upsert raises does not. */
  lemma RotateAgreesUnlessRaised(w: World, u: string, target: set<Token>, recorded: bool, owner: Token -> string)
    requires Sound(w, owner) && Enabled(w, Rotate(u, target, recorded), owner)
    ensures var v := Recompute(w, u, target, recorded);
      if recorded || target <= WindowOf(w.windows, u) then Sound(v, owner) else !Agrees(v)
  {
    UpsertFailureBreaks(w, u, target, recorded, owner);
    if recorded || target <= WindowOf(w.windows, u) {
      assert target <= WindowOf(w.windows, u) ==> target - WindowOf(w.windows, u) == {};
      assert Recompute(w, u, target, recorded) == Recompute(w, u, target, true);
      RotateAgrees(w, u, target, owner);
    }
  }

  /** A recompute whose upsert succeeds subscribes a token it lists exactly when the token
      was subscribed before or is new to the window: one that an earlier failure left in
      the window waits until the window has dropped it and lists it anew. */
  lemma ListedAnewIff(w: World, u: string, target: set<Token>, t: Token)
    requires t in target
    ensures t in Recompute(w, u, target, true).stream.intended <==>
      t in w.stream.intended || t !in WindowOf(w.windows, u)
  {
  }

  /** A session opened over an unclosed one: yesterday's token stays intended. */
  lemma StaleTokenAfterJump(t: Token, owner: Token -> string)
    ensures var es := [Enter(Connect), Enter(Collect), Rotate(owner(t), {t}, true), Enter(Connect)];
      CanRun(Initial, es, owner) && t in Run(Initial, es).stream.intended && !Agrees(Run(Initial, es))
  {
    var es := [Enter(Connect), Enter(Collect), Rotate(owner(t), {t}, true), Enter(Connect)];
    var w := Recompute(Collecting(), owner(t), {t}, true);
    var begun := EnterPhase(Initial, Connect);
    RunsThrough(Initial, es, [Initial, begun, Collecting(), w, EnterPhase(w, Connect)], owner);
    assert t in w.stream.intended;
    JumpKeepsAgreementIff(w);
  }

  lemma {:induction false} RunsThrough(w: World, es: seq<Event>, states: seq<World>, owner: Token -> string)
    requires |states| == |es| + 1 && states[0] == w
    requires forall n :: 0 <= n < |es| ==> Enabled(states[n], es[n], owner) && states[n + 1] == Step(states[n], es[n])
    ensures CanRun(w, es, owner) && Run(w, es) == states[|es|]
    decreases |es|
  {
    if es != [] {
      RunsThrough(states[1], es[1..], states[1..], owner);
    }
  }

  /** A failed upsert: the window holds a token that computing it again does not subscribe. */
  lemma TokenNeverSubscribed(t: Token, owner: Token -> string)
    ensures var es := [Enter(Connect), Enter(Collect), Rotate(owner(t), {t}, false), Rotate(owner(t), {t}, true)];
      CanRun(Initial, es, owner) && t !in Run(Initial, es).stream.intended && InSomeWindow(Run(Initial, es).windows, t)
  {
    var es := [Enter(Connect), Enter(Collect), Rotate(owner(t), {t}, false), Rotate(owner(t), {t}, true)];
    var w := Recompute(Collecting(), owner(t), {t}, false);
    var v := Recompute(w, owner(t), {t}, true);
    assert t in {t} - WindowOf(Collecting().windows, owner(t));
    assert WindowOf(w.windows, owner(t)) == {t} && {t} - {t} == {};
    assert t !in w.stream.intended;
    RunsThrough(Initial, es, [Initial, EnterPhase(Initial, Connect), Collecting(), w, v], owner);
    assert t in v.windows[owner(t)];
  }

  /** A session that has begun to collect, its socket not yet up. */
  function Collecting(): World {
    World(Collect, map[], StartStream(Initial.stream))
  }
}
