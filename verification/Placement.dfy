// Placing the orders of one leg so that a crash never doubles them: the entry order,
// attempted once per position, and the closing order, retried and resumed after a
// crash behind a look-up of its tag. Each durable write, each broker call and each
// arrival of a request at the broker is one event.

module Placement {

  /** How one place call ends. `Late` is a timed-out request still on its way. */
  datatype Answer = Acknowledged | TimedOutArrived | TimedOutLost | Late | Rejected | NotSent

  predicate Arrives(a: Answer) {
    a.Acknowledged? || a.TimedOutArrived?
  }

  /** The broker's side of one tag: orders it has accepted, and requests under way. */
  datatype Wire = Wire(orders: nat, underWay: nat)

  predicate Silent(w: Wire) {
    w.orders == 0 && w.underWay == 0
  }

  predicate AtMostOne(w: Wire) {
    w.orders + w.underWay <= 1
  }

  function Sent(w: Wire, a: Answer): Wire {
    if Arrives(a) then w.(orders := w.orders + 1) else if a.Late? then w.(underWay := w.underWay + 1) else w
  }

  function Arrived(w: Wire): Wire
    requires w.underWay > 0
  {
    Wire(w.orders + 1, w.underWay - 1)
  }

  // ---- The entry order ----

  /** Where the process is; everything but `Resting` is lost in a crash. */
  datatype EntryStep = EntryResting | Recorded | EntryMarked

  /** `created` is the committed position with its legs and intents. */
  datatype Entry = Entry(created: bool, step: EntryStep, wire: Wire)

  datatype EntryEvent = Enter | MarkEntry | PlaceEntry(a: Answer) | EntryArrives | EntryCrash

  predicate EntryEnabled(e: Entry, ev: EntryEvent) {
    match ev
    case Enter => e.step.EntryResting?
    case MarkEntry => e.step.Recorded?
    case PlaceEntry(_) => e.step.EntryMarked?
    case EntryArrives => e.wire.underWay > 0
    case EntryCrash => true
  }

  /** Entering finds a position already there, whoever created it, and stands down. */
  function EntryNext(e: Entry, ev: EntryEvent): Entry
    requires EntryEnabled(e, ev)
  {
    match ev
    case Enter => if e.created then e else Entry(true, Recorded, e.wire)
    case MarkEntry => e.(step := EntryMarked)
    case PlaceEntry(a) => Entry(e.created, EntryResting, Sent(e.wire, a))
    case EntryArrives => e.(wire := Arrived(e.wire))
    case EntryCrash => e.(step := EntryResting)
  }

  ghost predicate EntryCanRun(e: Entry, evs: seq<EntryEvent>)
    decreases |evs|
  {
    evs != [] ==> EntryEnabled(e, evs[0]) && EntryCanRun(EntryNext(e, evs[0]), evs[1..])
  }

  ghost function EntryRun(e: Entry, evs: seq<EntryEvent>): Entry
    requires EntryCanRun(e, evs)
    decreases |evs|
  {
    if evs == [] then e else EntryRun(EntryNext(e, evs[0]), evs[1..])
  }

  /** Nothing has been sent while there is no position or a call is still to come. */
  predicate EntrySound(e: Entry) {
    && AtMostOne(e.wire) && (!e.created || !e.step.EntryResting? ==> Silent(e.wire))
    && (!e.step.EntryResting? ==> e.created)
  }

  /** However often the process crashes and enters again, and however late requests
      arrive, a leg's entry tag never has two orders at the broker. */
  lemma {:induction false} OneEntryOrder(e: Entry, evs: seq<EntryEvent>)
    requires EntrySound(e) && EntryCanRun(e, evs)
    ensures EntrySound(EntryRun(e, evs))
    decreases |evs|
  {
    if evs != [] {
      OneEntryOrder(EntryNext(e, evs[0]), evs[1..]);
    }
  }

  predicate Sends(a: Answer) {
    Arrives(a) || a.Late?
  }

  /** The order goes out exactly once if the attempt that created the position gets to
      its broker call and sends it there, and otherwise not at all, ever. */
  lemma {:induction false} EnteredIff(e: Entry, evs: seq<EntryEvent>)
    requires EntrySound(e) && EntryCanRun(e, evs)
    ensures var w := EntryRun(e, evs).wire;
      w.orders + w.underWay == e.wire.orders + e.wire.underWay +
        if exists n :: 0 <= n < |evs| && evs[n].PlaceEntry? && Sends(evs[n].a) then 1 else 0
    decreases |evs|
  {
    if evs != [] {
      var next, rest := EntryNext(e, evs[0]), evs[1..];
      EnteredIff(next, rest);
      OneEntryOrder(next, rest);
      if n :| 0 <= n < |rest| && rest[n].PlaceEntry? && Sends(rest[n].a) { assert evs[n + 1] == rest[n]; }
      if n :| 0 <= n < |evs| && evs[n].PlaceEntry? && Sends(evs[n].a) { assert n > 0 ==> rest[n - 1] == evs[n]; }
    }
  }

  lemma {:induction false} EntryRunsThrough(e: Entry, evs: seq<EntryEvent>, states: seq<Entry>)
    requires |states| == |evs| + 1 && states[0] == e
    requires forall n :: 0 <= n < |evs| ==>
      EntryEnabled(states[n], evs[n]) && states[n + 1] == EntryNext(states[n], evs[n])
    ensures EntryCanRun(e, evs) && EntryRun(e, evs) == states[|evs|]
    decreases |evs|
  {
    if evs != [] {
      EntryRunsThrough(states[1], evs[1..], states[1..]);
    }
  }

  /** And the first time a leg is entered the process does get there: an acknowledged
      order is at the broker, a late one arrives. */
  lemma EntryGetsThere()
    ensures var (e, evs) := (Entry(false, EntryResting, Wire(0, 0)), [Enter, MarkEntry, PlaceEntry(Acknowledged)]);
      EntryCanRun(e, evs) && EntryRun(e, evs) == Entry(true, EntryResting, Wire(1, 0))
    ensures var e := Entry(false, EntryResting, Wire(0, 0));
      var evs := [Enter, MarkEntry, PlaceEntry(Late), EntryArrives];
      EntryCanRun(e, evs) && EntryRun(e, evs) == Entry(true, EntryResting, Wire(1, 0))
  {
    var e0 := Entry(false, EntryResting, Wire(0, 0));
    var e1 := Entry(true, Recorded, Wire(0, 0));
    var e2 := Entry(true, EntryMarked, Wire(0, 0));
    var done := Entry(true, EntryResting, Wire(1, 0));
    EntryRunsThrough(e0, [Enter, MarkEntry, PlaceEntry(Acknowledged)], [e0, e1, e2, done]);
    EntryRunsThrough(e0, [Enter, MarkEntry, PlaceEntry(Late), EntryArrives],
      [e0, e1, e2, Entry(true, EntryResting, Wire(0, 1)), done]);
  }

  /** A crash between the two leaves the leg entered but never sent, and the process able
      to look at it again. */
  lemma EntryCrashLosesTheOrder()
    ensures var (e, evs) := (Entry(false, EntryResting, Wire(0, 0)), [Enter, MarkEntry, EntryCrash, Enter]);
      EntryCanRun(e, evs) && EntryRun(e, evs) == Entry(true, EntryResting, Wire(0, 0))
  {
    var e0 := Entry(false, EntryResting, Wire(0, 0));
    var e1 := Entry(true, Recorded, Wire(0, 0));
    var e2 := Entry(true, EntryMarked, Wire(0, 0));
    var rests := Entry(true, EntryResting, Wire(0, 0));
    EntryRunsThrough(e0, [Enter, MarkEntry, EntryCrash, Enter], [e0, e1, e2, rests, rests]);
  }

  // ---- The closing order ----

  /** `Sending` has committed the mark and is in its attempts, however many there are. */
  datatype Step = Resting | Looking | Marking | Sending | Settling

  /** `exitable`: the position may be closed and the leg is not yet; `started`: the
      intent is marked as having a broker call under way. Both are committed. */
  datatype Exit = Exit(exitable: bool, started: bool, step: Step, wire: Wire)

  datatype Found = Order | Nothing | Unknown

  datatype Event =
    | Close | LookUp(found: Found) | Mark | Place(a: Answer) | Settle(done: bool) | Arrive | Crash

  /** The look-up tells the truth about what the broker has accepted so far. */
  predicate Enabled(x: Exit, ev: Event) {
    match ev
    case Close => x.step.Resting? && x.exitable
    case LookUp(found) =>
      x.step.Looking? && (found.Order? ==> x.wire.orders > 0) && (found.Nothing? ==> x.wire.orders == 0)
    case Mark => x.step.Marking?
    case Place(_) => x.step.Sending?
    case Settle(_) => x.step.Settling? || x.step.Sending?
    case Arrive => x.wire.underWay > 0
    case Crash => true
  }

  /** A call that was never sent may be tried again; every other answer ends the attempts.
      A leg marked before is looked up by its tag first, and only an empty answer
      leads to another order. */
  function Next(x: Exit, ev: Event): Exit
    requires Enabled(x, ev)
  {
    match ev
    case Close => x.(step := if x.started then Looking else Marking)
    case LookUp(found) => x.(step := if found.Nothing? then Marking else Settling)
    case Mark => x.(started := true, step := Sending)
    case Place(a) => x.(step := if a.NotSent? then Sending else Settling, wire := Sent(x.wire, a))
    case Settle(done) => x.(exitable := x.exitable && !done, step := Resting)
    case Arrive => x.(wire := Arrived(x.wire))
    case Crash => x.(step := Resting)
  }

  ghost predicate CanRun(x: Exit, evs: seq<Event>)
    decreases |evs|
  {
    evs != [] ==> Enabled(x, evs[0]) && CanRun(Next(x, evs[0]), evs[1..])
  }

  ghost function Run(x: Exit, evs: seq<Event>): Exit
    requires CanRun(x, evs)
    decreases |evs|
  {
    if evs == [] then x else Run(Next(x, evs[0]), evs[1..])
  }

  /** A leg whose exit has not begun. */
  const Fresh := Exit(true, false, Resting, Wire(0, 0))

  /** About to send means nothing was sent; anything sent means the intent is marked. */
  predicate Sound(x: Exit) {
    && AtMostOne(x.wire)
    && (x.step.Marking? || x.step.Sending? ==> Silent(x.wire))
    && (!Silent(x.wire) || x.step.Sending? || x.step.Looking? ==> x.started)
  }

  /** An empty look-up while a request was still under way. */
  predicate Blind(x: Exit, ev: Event) {
    ev.LookUp? && ev.found.Nothing? && x.wire.underWay > 0
  }

  ghost predicate NeverBlind(x: Exit, evs: seq<Event>)
    requires CanRun(x, evs)
    decreases |evs|
  {
    evs != [] ==> !Blind(x, evs[0]) && NeverBlind(Next(x, evs[0]), evs[1..])
  }

  lemma NextIsSound(x: Exit, ev: Event)
    requires Sound(x) && Enabled(x, ev) && !Blind(x, ev)
    ensures Sound(Next(x, ev))
  {
  }

  /** Over any crashes, lost acknowledgements, retries and resumes, a leg's exit tag
      never has two orders at the broker, as long as no look-up comes back empty
      while an earlier request is still under way. */
  lemma {:induction false} OneExitOrder(x: Exit, evs: seq<Event>)
    requires Sound(x) && CanRun(x, evs) && NeverBlind(x, evs)
    ensures Sound(Run(x, evs))
    decreases |evs|
  {
    if evs != [] {
      NextIsSound(x, evs[0]);
      OneExitOrder(Next(x, evs[0]), evs[1..]);
    }
  }

  /** That condition is the exact one: from any state where a look-up can come back
      empty, two orders are possible if and only if a request is under way. */
  lemma DuplicateIffUnderWay(x: Exit)
    requires Sound(x) && Enabled(x, LookUp(Nothing))
    ensures (exists evs :: CanRun(x, [LookUp(Nothing)] + evs) && NeverBlind(Next(x, LookUp(Nothing)), evs)
                && !AtMostOne(Run(x, [LookUp(Nothing)] + evs).wire))
      <==> x.wire.underWay > 0
  {
    if x.wire.underWay > 0 {
      SecondOrder(x);
    } else {
      forall evs | CanRun(x, [LookUp(Nothing)] + evs) && NeverBlind(Next(x, LookUp(Nothing)), evs)
        ensures AtMostOne(Run(x, [LookUp(Nothing)] + evs).wire)
      {
        assert ([LookUp(Nothing)] + evs)[1..] == evs;
        NextIsSound(x, LookUp(Nothing));
        OneExitOrder(Next(x, LookUp(Nothing)), evs);
      }
    }
  }

  lemma SecondOrder(x: Exit)
    requires Enabled(x, LookUp(Nothing)) && x.wire.underWay > 0
    ensures var evs := [Mark, Place(Acknowledged)];
      && CanRun(x, [LookUp(Nothing)] + evs) && NeverBlind(Next(x, LookUp(Nothing)), evs)
      && !AtMostOne(Run(x, [LookUp(Nothing)] + evs).wire)
  {
    var evs := [Mark, Place(Acknowledged)];
    var x1 := Next(x, LookUp(Nothing));
    var x2 := Next(x1, Mark);
    RunsThrough(x, [LookUp(Nothing)] + evs, [x, x1, x2, Next(x2, Place(Acknowledged))]);
    assert ([LookUp(Nothing)] + evs)[1..] == evs && evs[1..] == [Place(Acknowledged)] &&
      [Place(Acknowledged)][1..] == [];
  }

  // ---- When closing is over ----

  /** What a run can no longer send or start: nothing is being sent, and no close may begin. */
  predicate Over(x: Exit) {
    !x.exitable && x.step.Resting?
  }

  /** Once a leg is settled as closed nothing more is sent for it, whatever crashes and
      late arrivals follow; what was sent can only arrive. */
  lemma {:induction false} SettledIsOver(x: Exit, evs: seq<Event>)
    requires Over(x) && CanRun(x, evs)
    ensures var y := Run(x, evs);
      Over(y) && y.wire.orders + y.wire.underWay == x.wire.orders + x.wire.underWay
    decreases |evs|
  {
    if evs != [] {
      SettledIsOver(Next(x, evs[0]), evs[1..]);
    }
  }

  /** Settling as closed is what ends it, and nothing else does: any other settling, and
      every crash, leaves the leg to be closed again. */
  lemma {:induction false} OverIff(x: Exit, evs: seq<Event>)
    requires CanRun(x, evs)
    ensures Run(x, evs).exitable <==> x.exitable && forall n :: 0 <= n < |evs| ==> evs[n] != Settle(true)
    decreases |evs|
  {
    if evs != [] {
      OverIff(Next(x, evs[0]), evs[1..]);
      assert forall n :: 1 <= n < |evs| ==> evs[n] == evs[1..][n - 1];
      if forall n :: 0 <= n < |evs[1..]| ==> evs[1..][n] != Settle(true) {
        forall n | 1 <= n < |evs| ensures evs[n] != Settle(true) { assert evs[1..][n - 1] != Settle(true); }
      }
    }
  }

  // ---- The whole run: when a leg's exit is sent twice ----

  /** Some place call of this attempt, before it settles or crashes, sends the order. */
  ghost predicate Resends(evs: seq<Event>)
    decreases |evs|
  {
    evs != [] &&
    match evs[0]
    case Place(a) => Sends(a) || (a.NotSent? && Resends(evs[1..]))
    case Mark => Resends(evs[1..])
    case Arrive => Resends(evs[1..])
    case _ => false
  }

  /** Somewhere in the run a look-up comes back empty while an earlier request is still
      under way, and the attempt it lets through sends the order. */
  ghost predicate SentBlindly(x: Exit, evs: seq<Event>)
    requires CanRun(x, evs)
    decreases |evs|
  {
    evs != [] && ((Blind(x, evs[0]) && Resends(evs[1..])) || SentBlindly(Next(x, evs[0]), evs[1..]))
  }

  /** Past a blind look-up: something was sent, and the process may send again. */
  predicate Primed(x: Exit) {
    AtMostOne(x.wire) && !Silent(x.wire) && x.started && (x.step.Marking? || x.step.Sending?)
  }

  lemma {:induction false} DoubledStays(x: Exit, evs: seq<Event>)
    requires CanRun(x, evs) && !AtMostOne(x.wire)
    ensures !AtMostOne(Run(x, evs).wire)
    decreases |evs|
  {
    if evs != [] {
      DoubledStays(Next(x, evs[0]), evs[1..]);
    }
  }

  lemma {:induction false} DoubledFrom(x: Exit, evs: seq<Event>)
    requires CanRun(x, evs) && (Sound(x) || Primed(x))
    ensures !AtMostOne(Run(x, evs).wire) <==> SentBlindly(x, evs) || (Primed(x) && Resends(evs))
    decreases |evs|
  {
    if evs != [] {
      var next, rest := Next(x, evs[0]), evs[1..];
      if !AtMostOne(next.wire) {
        DoubledStays(next, rest);
      } else {
        OneEvent(x, evs[0]);
        DoubledFrom(next, rest);
      }
    }
  }

  lemma OneEvent(x: Exit, ev: Event)
    requires Enabled(x, ev) && (Sound(x) || Primed(x)) && AtMostOne(Next(x, ev).wire)
    ensures Primed(Next(x, ev)) <==>
      Blind(x, ev) || (Primed(x) && (ev.Mark? || ev.Arrive? || (ev.Place? && ev.a.NotSent?)))
    ensures Primed(Next(x, ev)) || Sound(Next(x, ev))
  {
  }

  /** A leg's exit reaches the broker twice exactly when some look-up of the run comes
      back empty over a request still under way and its attempt sends the order. */
  lemma DoubledIff(x: Exit, evs: seq<Event>)
    requires Sound(x) && CanRun(x, evs)
    ensures !AtMostOne(Run(x, evs).wire) <==> SentBlindly(x, evs)
  {
    DoubledFrom(x, evs);
  }

  /** Without late requests that never happens: every timed-out request has either
      arrived by the time the call gives up or never arrives. */
  lemma {:induction false} OneExitOrderUnlessLate(x: Exit, evs: seq<Event>)
    requires Sound(x) && x.wire.underWay == 0 && CanRun(x, evs) && Place(Late) !in evs
    ensures NeverBlind(x, evs) && AtMostOne(Run(x, evs).wire)
    decreases |evs|
  {
    if evs != [] {
      NextIsSound(x, evs[0]);
      OneExitOrderUnlessLate(Next(x, evs[0]), evs[1..]);
    }
  }

  /** Such a run: the close times out, the process restarts before the request gets
      through, finds nothing under the tag, and closes the leg twice. */
  lemma LateRequestClosesTwice()
    ensures var evs := LateClose(); CanRun(Fresh, evs) && Run(Fresh, evs).wire.orders == 2
  {
    var evs := LateClose();
    var x1 := Exit(true, false, Marking, Wire(0, 0));
    var x2 := Exit(true, true, Sending, Wire(0, 0));
    var x3 := Exit(true, true, Settling, Wire(0, 1));
    var x4 := Exit(true, true, Resting, Wire(0, 1));
    var x5 := Exit(true, true, Looking, Wire(0, 1));
    var x6 := Exit(true, true, Marking, Wire(0, 1));
    var x7 := Exit(true, true, Sending, Wire(0, 1));
    var x8 := Exit(true, true, Settling, Wire(1, 1));
    var x9 := Exit(true, true, Settling, Wire(2, 0));
    RunsThrough(Fresh, evs, [Fresh, x1, x2, x3, x4, x5, x6, x7, x8, x9]);
  }

  function LateClose(): seq<Event> {
    [Close, Mark, Place(Late), Crash, Close, LookUp(Nothing), Mark, Place(Acknowledged), Arrive]
  }

  lemma {:induction false} RunsThrough(x: Exit, evs: seq<Event>, states: seq<Exit>)
    requires |states| == |evs| + 1 && states[0] == x
    requires forall n :: 0 <= n < |evs| ==> Enabled(states[n], evs[n]) && states[n + 1] == Next(states[n], evs[n])
    ensures CanRun(x, evs) && Run(x, evs) == states[|evs|]
    decreases |evs|
  {
    if evs != [] {
      RunsThrough(states[1], evs[1..], states[1..]);
    }
  }
}
