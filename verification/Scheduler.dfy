// Daily triggers and the runner that receives them: a runner's lifecycle as the
// hooks it calls, one registration with the scheduler, and what every run of
// ticks, dispatches, market events and stops delivers.

module Scheduler {

  // ---- The runner ----

  datatype Status = Created | Running | Stopped | Frozen

  datatype Hook = Recover | OnTrigger(name: string) | OnTick | OnMonitor | OnShutdown {
    predicate Event() {
      OnTrigger? || OnTick? || OnMonitor?
    }
  }

  /** One call of a strategy hook, and whether it returned normally. */
  datatype Call = Call(hook: Hook, ok: bool)

  datatype Runner = Runner(status: Status, log: seq<Call>)

  const Unstarted := Runner(Created, [])

  function Started(r: Runner, ok: bool): Runner {
    Runner(if ok then Running else Frozen, r.log + [Call(Recover, ok)])
  }

  function Dispatched(r: Runner, hook: Hook, ok: bool): Runner {
    if r.status.Running? then Runner(if ok then Running else Frozen, r.log + [Call(hook, ok)]) else r
  }

  function Halted(r: Runner, ok: bool): Runner {
    if r.status.Stopped? || r.status.Frozen? then r else Runner(Stopped, r.log + [Call(OnShutdown, ok)])
  }

  /** A successful recovery, then events that all returned normally. */
  ghost predicate Lived(log: seq<Call>) {
    log != [] && log[0] == Call(Recover, true) && forall m :: 1 <= m < |log| ==> log[m].ok && log[m].hook.Event()
  }

  /** The only hook sequences a runner ever produces, and what each leaves it as. */
  ghost predicate Lawful(r: Runner) {
    match r.status
    case Created => r.log == []
    case Running => Lived(r.log)
    case Frozen =>
      r.log == [Call(Recover, false)] ||
      (var n := |r.log| - 1; n >= 1 && Lived(r.log[..n]) && !r.log[n].ok && r.log[n].hook.Event())
    case Stopped =>
      var n := |r.log| - 1; n >= 0 && r.log[n].hook.OnShutdown? && (n == 0 || Lived(r.log[..n]))
  }

  lemma RunnerStaysLawful(r: Runner, hook: Hook, ok: bool)
    requires Lawful(r)
    ensures r.status.Created? ==> Lawful(Started(r, ok))
    ensures hook.Event() ==> Lawful(Dispatched(r, hook, ok))
    ensures Lawful(Halted(r, ok))
  {
    assert (r.log + [Call(hook, ok)])[..|r.log|] == r.log && (r.log + [Call(OnShutdown, ok)])[..|r.log|] == r.log;
  }

  /** No event reaches the strategy before its recovery succeeded, or after any hook
      failed or the shutdown hook ran; and the shutdown hook runs at most once. */
  lemma EventsOnlyWhileRunning(r: Runner, m: nat)
    requires Lawful(r) && m < |r.log|
    ensures r.log[m].hook.Event() ==>
      m >= 1 && r.log[0] == Call(Recover, true) && forall j :: 0 <= j < m ==> r.log[j].ok && !r.log[j].hook.OnShutdown?
    ensures r.log[m].hook.OnShutdown? ==> m == |r.log| - 1
  {
    var n := |r.log| - 1;
    if r.status.Frozen? || r.status.Stopped? {
      assert forall j :: 0 <= j < n ==> r.log[..n][j] == r.log[j];
    }
  }

  // ---- One registration ----

  type Date = int
  type Time = int

  datatype CatchUp = Skip | FireOnStartup

  datatype Trigger = Trigger(name: string, at: Time, catchUp: CatchUp)

  datatype Delivery = Delivery(name: string, on: Date, at: Time)

  /** A registered runner with its triggers and, by name, the last date each fired or
      was skipped. `pending` are the dispatches the current tick has yet to finish;
      `delivered` every trigger the strategy was called with; `marked` every trigger
      and date ever marked fired. */
  datatype Registration = Registration(
    runner: Runner, triggers: seq<Trigger>, firedOn: map<string, Date>, skippedOn: map<string, Date>,
    today: Date, now: Time, pending: set<string>, delivered: seq<Delivery>, marked: set<(string, Date)>)

  predicate UniqueNames(triggers: seq<Trigger>) {
    forall m, n :: 0 <= m < n < |triggers| ==> triggers[m].name != triggers[n].name
  }

  predicate Missed(t: Trigger, now: Time) {
    now >= t.at && t.catchUp.Skip?
  }

  /** The triggers skipped on the day of registration. */
  function Seeded(triggers: seq<Trigger>, today: Date, now: Time, trading: bool): map<string, Date> {
    map t | t in triggers && trading && Missed(t, now) :: t.name := today
  }

  function Register(
      triggers: seq<Trigger>, recovers: bool, today: Date, now: Time, calendar: Date -> bool): Registration
    requires UniqueNames(triggers)
  {
    var skipped := Seeded(triggers, today, now, calendar(today));
    Registration(Started(Unstarted, recovers), triggers, map[], skipped, today, now, {}, [], {})
  }

  predicate On(dates: map<string, Date>, name: string, today: Date) {
    name in dates && dates[name] == today
  }

  predicate IsDue(r: Registration, t: Trigger, today: Date, now: Time) {
    !On(r.firedOn, t.name, today) && !On(r.skippedOn, t.name, today) && now >= t.at
  }

  function DueNames(r: Registration, today: Date, now: Time, trading: bool): set<string> {
    if r.runner.status.Running? && trading then set t | t in r.triggers && IsDue(r, t, today, now) :: t.name else {}
  }

  datatype Event =
    | Tick(today: Date, now: Time)
    | Dispatch(name: string, ok: bool)
    | Market(hook: Hook, ok: bool)
    | Stop(ok: bool)

  /** Ticks see a clock that never runs back, and wait for the last tick's dispatches. */
  predicate Enabled(r: Registration, e: Event) {
    match e
    case Tick(today, now) => r.pending == {} && (today > r.today || (today == r.today && now >= r.now))
    case Dispatch(name, _) => name in r.pending
    case Market(hook, _) => hook.OnTick? || hook.OnMonitor?
    case Stop(_) => true
  }

  function Step(r: Registration, e: Event, calendar: Date -> bool): Registration
    requires Enabled(r, e)
  {
    match e
    case Tick(today, now) =>
      var due := DueNames(r, today, now, calendar(today));
      r.(today := today, now := now, pending := due,
         firedOn := r.firedOn + (map name | name in due :: today),
         marked := r.marked + (set name | name in due :: (name, today)))
    case Dispatch(name, ok) => Deliver(r, name, ok)
    case Market(hook, ok) => r.(runner := Dispatched(r.runner, hook, ok))
    case Stop(ok) => r.(runner := Halted(r.runner, ok))
  }

  /** One dispatch of the current tick; dropped unless the runner still runs. */
  function Deliver(r: Registration, name: string, ok: bool): Registration {
    r.(pending := r.pending - {name}, runner := Dispatched(r.runner, OnTrigger(name), ok),
       delivered := if r.runner.status.Running? then r.delivered + [Delivery(name, r.today, r.now)] else r.delivered)
  }

  ghost predicate CanRun(r: Registration, es: seq<Event>, calendar: Date -> bool)
    decreases |es|
  {
    es != [] ==> Enabled(r, es[0]) && CanRun(Step(r, es[0], calendar), es[1..], calendar)
  }

  ghost function Run(r: Registration, es: seq<Event>, calendar: Date -> bool): Registration
    requires CanRun(r, es, calendar)
    decreases |es|
  {
    if es == [] then r else Run(Step(r, es[0], calendar), es[1..], calendar)
  }

  // ---- What every run keeps ----

  /** A delivery comes from a trigger of its own name, at or past its time, on a
      trading day on which it was not skipped. */
  ghost predicate Rightful(r: Registration, d: Delivery, calendar: Date -> bool) {
    && (exists t :: t in r.triggers && t.name == d.name && d.at >= t.at)
    && calendar(d.on) && !On(r.skippedOn, d.name, d.on)
  }

  ghost predicate WasDelivered(r: Registration, name: string, on: Date) {
    exists m :: 0 <= m < |r.delivered| && r.delivered[m].name == name && r.delivered[m].on == on
  }

  ghost predicate Sound(r: Registration, calendar: Date -> bool) {
    && Lawful(r.runner) && !r.runner.status.Created?
    && OncePerDay(r) && (forall m :: 0 <= m < |r.delivered| ==> Rightful(r, r.delivered[m], calendar))
    && MarksAreCurrent(r) && Recorded(r) && PendingIsDue(r, calendar) && Accounted(r)
  }

  ghost predicate OncePerDay(r: Registration) {
    forall m, n :: 0 <= m < n < |r.delivered| ==>
      r.delivered[m].name != r.delivered[n].name || r.delivered[m].on != r.delivered[n].on
  }

  /** Marks never lie in the future, and today's are in `firedOn`. */
  ghost predicate MarksAreCurrent(r: Registration) {
    forall p :: p in r.marked ==> p.1 <= r.today && (p.1 == r.today ==> On(r.firedOn, p.0, r.today))
  }

  /** `firedOn` records marks: nothing else writes it. */
  ghost predicate Recorded(r: Registration) {
    forall name :: name in r.firedOn ==> (name, r.firedOn[name]) in r.marked
  }

  ghost predicate PendingIsDue(r: Registration, calendar: Date -> bool) {
    forall name :: name in r.pending ==>
      (name, r.today) in r.marked && Rightful(r, Delivery(name, r.today, r.now), calendar)
  }

  /** Delivered means marked and no longer pending; and while the runner runs, every
      mark that is no longer pending has been delivered. */
  ghost predicate Accounted(r: Registration) {
    && (forall name, on :: WasDelivered(r, name, on) ==>
      (name, on) in r.marked && !(on == r.today && name in r.pending))
    && (r.runner.status.Running? ==>
          forall p :: p in r.marked && !(p.1 == r.today && p.0 in r.pending) ==> WasDelivered(r, p.0, p.1))
  }

  lemma RegisterIsSound(triggers: seq<Trigger>, recovers: bool, today: Date, now: Time, calendar: Date -> bool)
    requires UniqueNames(triggers)
    ensures Sound(Register(triggers, recovers, today, now, calendar), calendar)
  {
  }

  lemma TickMarks(r: Registration, today: Date, now: Time, calendar: Date -> bool)
    requires Sound(r, calendar) && Enabled(r, Tick(today, now))
    ensures var s := Step(r, Tick(today, now), calendar); MarksAreCurrent(s) && Recorded(s)
  {
  }

  lemma TickAccounts(r: Registration, today: Date, now: Time, calendar: Date -> bool)
    requires Sound(r, calendar) && Enabled(r, Tick(today, now))
    ensures Accounted(Step(r, Tick(today, now), calendar))
  {
    var s := Step(r, Tick(today, now), calendar);
    forall name, on ensures WasDelivered(s, name, on) <==> WasDelivered(r, name, on) {}
    forall name | name in s.pending ensures (name, today) !in r.marked {}
    forall p | p in s.marked ensures p in r.marked || (p.1 == today && p.0 in s.pending) {}
  }

  lemma TickIsSound(r: Registration, today: Date, now: Time, calendar: Date -> bool)
    requires Sound(r, calendar) && Enabled(r, Tick(today, now))
    ensures Sound(Step(r, Tick(today, now), calendar), calendar)
  {
    var s := Step(r, Tick(today, now), calendar);
    TickMarks(r, today, now, calendar);
    TickAccounts(r, today, now, calendar);
    forall m | 0 <= m < |s.delivered| ensures Rightful(s, s.delivered[m], calendar) {
      assert Rightful(r, r.delivered[m], calendar);
    }
  }

  lemma DispatchIsSound(r: Registration, name: string, ok: bool, calendar: Date -> bool)
    requires Sound(r, calendar) && Enabled(r, Dispatch(name, ok))
    ensures Sound(Step(r, Dispatch(name, ok), calendar), calendar)
  {
    var s := Step(r, Dispatch(name, ok), calendar);
    RunnerStaysLawful(r.runner, OnTrigger(name), ok);
    if r.runner.status.Running? {
      var d := Delivery(name, r.today, r.now);
      assert s.delivered == r.delivered + [d];
      forall n, on ensures WasDelivered(s, n, on) <==> WasDelivered(r, n, on) || (n == name && on == r.today) {
        if WasDelivered(r, n, on) {
          var m :| 0 <= m < |r.delivered| && r.delivered[m].name == n && r.delivered[m].on == on;
          assert s.delivered[m] == r.delivered[m];
        }
        assert s.delivered[|r.delivered|] == d;
      }
      forall m | 0 <= m < |r.delivered| ensures r.delivered[m].name != name || r.delivered[m].on != r.today {
        assert WasDelivered(r, r.delivered[m].name, r.delivered[m].on);
      }
      forall m | 0 <= m < |s.delivered| ensures Rightful(s, s.delivered[m], calendar) {
        if m < |r.delivered| { assert Rightful(r, r.delivered[m], calendar); } else { assert Rightful(r, d, calendar); }
      }
    } else {
      forall n, on ensures WasDelivered(s, n, on) <==> WasDelivered(r, n, on) {}
      forall m | 0 <= m < |s.delivered| ensures Rightful(s, s.delivered[m], calendar) {
        assert Rightful(r, r.delivered[m], calendar);
      }
    }
    forall n | n in s.pending ensures Rightful(s, Delivery(n, s.today, s.now), calendar) {
      assert Rightful(r, Delivery(n, r.today, r.now), calendar);
    }
  }

  lemma OtherIsSound(r: Registration, runner: Runner, calendar: Date -> bool)
    requires Sound(r, calendar) && Lawful(runner) && !runner.status.Created? &&
      (runner.status.Running? ==> r.runner.status.Running?)
    ensures Sound(r.(runner := runner), calendar)
  {
    var s := r.(runner := runner);
    forall n, on ensures WasDelivered(s, n, on) <==> WasDelivered(r, n, on) {}
    forall d | Rightful(r, d, calendar) ensures Rightful(s, d, calendar) {}
  }

  lemma StepIsSound(r: Registration, e: Event, calendar: Date -> bool)
    requires Sound(r, calendar) && Enabled(r, e)
    ensures Sound(Step(r, e, calendar), calendar)
  {
    match e
    case Tick(today, now) => TickIsSound(r, today, now, calendar);
    case Dispatch(name, ok) => DispatchIsSound(r, name, ok, calendar);
    case Market(hook, ok) =>
      RunnerStaysLawful(r.runner, hook, ok);
      OtherIsSound(r, Dispatched(r.runner, hook, ok), calendar);
    case Stop(ok) =>
      RunnerStaysLawful(r.runner, OnShutdown, ok);
      OtherIsSound(r, Halted(r.runner, ok), calendar);
  }

  /** Over every run of one registration: each trigger is delivered at most once a
      date, never early, never on a day without trading, never on a date it was
      skipped; and while the runner runs nothing marked as fired has been dropped. */
  lemma {:induction false} RunIsSound(r: Registration, es: seq<Event>, calendar: Date -> bool)
    requires Sound(r, calendar) && CanRun(r, es, calendar)
    ensures Sound(Run(r, es, calendar), calendar)
    decreases |es|
  {
    if es != [] {
      StepIsSound(r, es[0], calendar);
      RunIsSound(Step(r, es[0], calendar), es[1..], calendar);
    }
  }

  // ---- What was missed before registration ----

  lemma {:induction false} SkipsStay(r: Registration, es: seq<Event>, calendar: Date -> bool)
    requires CanRun(r, es, calendar)
    ensures Run(r, es, calendar).skippedOn == r.skippedOn && Run(r, es, calendar).triggers == r.triggers
    decreases |es|
  {
    if es != [] {
      SkipsStay(Step(r, es[0], calendar), es[1..], calendar);
    }
  }

  lemma NamesIdentify(triggers: seq<Trigger>, t: Trigger, u: Trigger)
    requires UniqueNames(triggers) && t in triggers && u in triggers && t.name == u.name
    ensures t == u
  {
    var m, n :| 0 <= m < |triggers| && 0 <= n < |triggers| && triggers[m] == t && triggers[n] == u;
  }

  /** However the run goes, a trigger is skipped on one date at the most: the day of its
      registration, if that is a trading day, its time had passed, and it is one to skip. */
  lemma SkippedIff(
      triggers: seq<Trigger>, recovers: bool, today: Date, now: Time, es: seq<Event>, calendar: Date -> bool,
      t: Trigger, on: Date)
    requires UniqueNames(triggers) && t in triggers
    requires CanRun(Register(triggers, recovers, today, now, calendar), es, calendar)
    ensures On(Run(Register(triggers, recovers, today, now, calendar), es, calendar).skippedOn, t.name, on) <==>
      on == today && calendar(today) && now >= t.at && t.catchUp == Skip
  {
    var r := Register(triggers, recovers, today, now, calendar);
    SkipsStay(r, es, calendar);
    forall u | u in triggers && u.name == t.name ensures u == t { NamesIdentify(triggers, t, u); }
  }

  /** So a missed trigger that is to be skipped is not delivered that day, come what may. */
  lemma MissedSkipIsNotDelivered(
      triggers: seq<Trigger>, recovers: bool, today: Date, now: Time, es: seq<Event>, calendar: Date -> bool,
      t: Trigger)
    requires UniqueNames(triggers) && t in triggers && now >= t.at && t.catchUp == Skip && calendar(today)
    requires CanRun(Register(triggers, recovers, today, now, calendar), es, calendar)
    ensures !WasDelivered(Run(Register(triggers, recovers, today, now, calendar), es, calendar), t.name, today)
  {
    var r := Register(triggers, recovers, today, now, calendar);
    RegisterIsSound(triggers, recovers, today, now, calendar);
    RunIsSound(r, es, calendar);
    SkippedIff(triggers, recovers, today, now, es, calendar, t, today);
  }

  /** And any other trigger that is past its time, missed before registration or not, is
      delivered on every trading day on which a tick finds the runner running, unless the
      runner stops running before the tick's dispatches are done. */
  lemma UnskippedIsDelivered(
      triggers: seq<Trigger>, recovers: bool, today: Date, now: Time, es: seq<Event>, day: Date, at: Time,
      dispatches: seq<Event>, calendar: Date -> bool, t: Trigger)
    requires UniqueNames(triggers) && t in triggers && at >= t.at && calendar(day)
    requires day == today && now >= t.at ==> t.catchUp == FireOnStartup
    requires CanRun(Register(triggers, recovers, today, now, calendar), es, calendar)
    requires var r := Run(Register(triggers, recovers, today, now, calendar), es, calendar);
      && Enabled(r, Tick(day, at)) && r.runner.status.Running?
      && CanRun(Step(r, Tick(day, at), calendar), dispatches, calendar) && (forall e :: e in dispatches ==> !e.Tick?)
      && Run(Step(r, Tick(day, at), calendar), dispatches, calendar).pending == {}
    ensures var r := Run(Register(triggers, recovers, today, now, calendar), es, calendar);
      var end := Run(Step(r, Tick(day, at), calendar), dispatches, calendar);
      WasDelivered(end, t.name, day) || !end.runner.status.Running?
  {
    var start := Register(triggers, recovers, today, now, calendar);
    RegisterIsSound(triggers, recovers, today, now, calendar);
    RunIsSound(start, es, calendar);
    SkipsStay(start, es, calendar);
    SkippedIff(triggers, recovers, today, now, es, calendar, t, day);
    TickDelivers(Run(start, es, calendar), day, at, dispatches, calendar, t);
  }

  // ---- What a tick delivers ----

  /** A tick that finds the runner running on a trading day: once its dispatches are
      done, every trigger at or past its time and not skipped that day has been
      delivered that day, or the runner has stopped running. */
  lemma TickDelivers(r: Registration, today: Date, now: Time, es: seq<Event>, calendar: Date -> bool, t: Trigger)
    requires Sound(r, calendar) && Enabled(r, Tick(today, now)) && r.runner.status.Running? && calendar(today)
    requires forall e :: e in es ==> !e.Tick?
    requires var s := Step(r, Tick(today, now), calendar); CanRun(s, es, calendar) && Run(s, es, calendar).pending == {}
    requires t in r.triggers && now >= t.at && !On(r.skippedOn, t.name, today)
    ensures var end := Run(Step(r, Tick(today, now), calendar), es, calendar);
      WasDelivered(end, t.name, today) || !end.runner.status.Running?
  {
    var s := Step(r, Tick(today, now), calendar);
    TickIsSound(r, today, now, calendar);
    RunIsSound(s, es, calendar);
    if !On(r.firedOn, t.name, today) {
      assert t.name in s.pending && (t.name, today) in s.marked;
      MarksStay(s, es, calendar);
    } else {
      MarksStay(s, es, calendar);
    }
  }

  lemma {:induction false} MarksStay(r: Registration, es: seq<Event>, calendar: Date -> bool)
    requires CanRun(r, es, calendar) && forall e :: e in es ==> !e.Tick?
    ensures Run(r, es, calendar).marked == r.marked && Run(r, es, calendar).today == r.today
    decreases |es|
  {
    if es != [] {
      MarksStay(Step(r, es[0], calendar), es[1..], calendar);
    }
  }

  lemma {:induction false} RunConcat(r: Registration, a: seq<Event>, b: seq<Event>, calendar: Date -> bool)
    requires CanRun(r, a + b, calendar)
    ensures CanRun(r, a, calendar) && CanRun(Run(r, a, calendar), b, calendar)
    ensures Run(r, a + b, calendar) == Run(Run(r, a, calendar), b, calendar)
    decreases |a|
  {
    if a == [] {
      assert a + b == b;
    } else {
      assert (a + b)[0] == a[0] && (a + b)[1..] == a[1..] + b;
      RunConcat(Step(r, a[0], calendar), a[1..], b, calendar);
    }
  }

  /** The event leaves a running runner running. */
  predicate Harmless(e: Event) {
    match e
    case Tick(_, _) => true
    case Dispatch(_, ok) => ok
    case Market(_, ok) => ok
    case Stop(_) => false
  }

  /** While a name is pending no tick gets in, and the runner runs on exactly as long
      as every event is harmless. */
  lemma {:induction false} PendingWaits(r: Registration, es: seq<Event>, calendar: Date -> bool, name: string)
    requires Sound(r, calendar) && CanRun(r, es, calendar) && name in r.pending
    requires forall e :: e in es && e.Dispatch? ==> e.name != name
    ensures var s := Run(r, es, calendar);
      && Sound(s, calendar) && s.today == r.today && name in s.pending
      && (s.runner.status.Running? <==> r.runner.status.Running? && forall e :: e in es ==> Harmless(e))
    decreases |es|
  {
    if es != [] {
      var e, rest := es[0], es[1..];
      assert es == [e] + rest && e in es;
      StepIsSound(r, e, calendar);
      StepRuns(r, e, calendar, name);
      PendingWaits(Step(r, e, calendar), rest, calendar, name);
      assert (forall x :: x in es ==> Harmless(x)) <==> Harmless(e) && forall x :: x in rest ==> Harmless(x);
    }
  }

  lemma StepRuns(r: Registration, e: Event, calendar: Date -> bool, name: string)
    requires Enabled(r, e) && name in r.pending && (e.Dispatch? ==> e.name != name)
    ensures var s := Step(r, e, calendar);
      s.today == r.today && name in s.pending && (s.runner.status.Running? <==> r.runner.status.Running? && Harmless(e))
  {
  }

  lemma {:induction false} DeliveriesLast(r: Registration, es: seq<Event>, calendar: Date -> bool)
    requires CanRun(r, es, calendar)
    ensures r.delivered <= Run(r, es, calendar).delivered
    ensures !r.runner.status.Running? && !r.runner.status.Created? ==> Run(r, es, calendar).delivered == r.delivered
    decreases |es|
  {
    if es != [] {
      DeliveriesLast(Step(r, es[0], calendar), es[1..], calendar);
    }
  }

  /** A due trigger, once marked fired, is delivered that day exactly when every event
      between the tick and its own dispatch leaves the runner running: no hook failed
      and nobody stopped it. What happens afterwards does not matter. */
  lemma DeliveredIffStillRunning(
      r: Registration, today: Date, now: Time, before: seq<Event>, name: string, ok: bool, after: seq<Event>,
      calendar: Date -> bool)
    requires Sound(r, calendar) && Enabled(r, Tick(today, now)) && name in DueNames(r, today, now, calendar(today))
    requires CanRun(Step(r, Tick(today, now), calendar), before + ([Dispatch(name, ok)] + after), calendar)
    requires forall e :: e in before && e.Dispatch? ==> e.name != name
    ensures WasDelivered(Run(Step(r, Tick(today, now), calendar), before + ([Dispatch(name, ok)] + after), calendar),
      name, today)
      <==> forall e :: e in before ==> Harmless(e)
  {
    var s, rest := Step(r, Tick(today, now), calendar), [Dispatch(name, ok)] + after;
    TickIsSound(r, today, now, calendar);
    RunConcat(s, before, rest, calendar);
    PendingWaits(s, before, calendar, name);
    var mid := Run(s, before, calendar);
    var sent := Deliver(mid, name, ok);
    assert rest[0] == Dispatch(name, ok) && rest[1..] == after;
    DeliveriesLast(sent, after, calendar);
    var end := Run(sent, after, calendar);
    assert !WasDelivered(mid, name, today);
    if mid.runner.status.Running? {
      var m := |mid.delivered|;
      assert sent.delivered[m] == Delivery(name, today, mid.now);
      assert end.delivered[m] == sent.delivered[m];
    } else {
      assert end.delivered == mid.delivered;
    }
  }

  /** A dropped trigger: a market hook fails between the tick and the dispatch. */
  lemma MarketFailureDrops(calendar: Date -> bool)
    requires calendar(1)
    ensures var r := Register([Trigger("exit", 5, Skip)], true, 1, 0, calendar);
      var es := [Event.Tick(1, 6), Market(OnTick, false), Dispatch("exit", true)];
      && CanRun(r, es, calendar)
      && ("exit", 1) in Run(r, es, calendar).marked && !WasDelivered(Run(r, es, calendar), "exit", 1)
  {
    var t := Trigger("exit", 5, Skip);
    var r := Register([t], true, 1, 0, calendar);
    RegisterIsSound([t], true, 1, 0, calendar);
    assert t in [t] && "exit" in DueNames(r, 1, 6, true);
    var s := Step(r, Event.Tick(1, 6), calendar);
    var tail := [Market(OnTick, false), Dispatch("exit", true)];
    assert [Event.Tick(1, 6), Market(OnTick, false), Dispatch("exit", true)][1..] == tail;
    assert tail == [Market(OnTick, false)] + ([Dispatch("exit", true)] + []);
    assert tail[1..] == [Dispatch("exit", true)] && [Dispatch("exit", true)][1..] == [];
    var u := Step(s, Market(OnTick, false), calendar);
    assert CanRun(u, tail[1..], calendar) && CanRun(s, tail, calendar);
    DeliveredIffStillRunning(r, 1, 6, [Market(OnTick, false)], "exit", true, [], calendar);
    assert Market(OnTick, false) in [Market(OnTick, false)];
    MarksStay(s, tail, calendar);
  }

  /** The dispatches of one tick in the order they get through, `ok(name)` saying
      whether the strategy's hook returns normally. */
  function DispatchAll(r: Registration, order: seq<string>, ok: string -> bool): Registration
    decreases |order|
  {
    if order == [] then r else DispatchAll(Deliver(r, order[0], ok(order[0])), order[1..], ok)
  }

  lemma {:induction false} DeliveriesStay(r: Registration, order: seq<string>, ok: string -> bool)
    ensures r.delivered <= DispatchAll(r, order, ok).delivered
    ensures !r.runner.status.Running? ==> DispatchAll(r, order, ok).delivered == r.delivered
    decreases |order|
  {
    if order != [] {
      DeliveriesStay(Deliver(r, order[0], ok(order[0])), order[1..], ok);
    }
  }

  /** In a tick with nothing but its own dispatches, a due trigger is dropped exactly
      when an earlier one froze the runner, although both were marked as fired. */
  lemma {:induction false} DroppedIffFrozenEarlier(r: Registration, order: seq<string>, ok: string -> bool, k: nat)
    requires r.runner.status.Running? && k < |order|
    requires forall m, n :: 0 <= m < n < |order| ==> order[m] != order[n]
    requires !WasDelivered(r, order[k], r.today)
    ensures WasDelivered(DispatchAll(r, order, ok), order[k], r.today) <==> forall j :: 0 <= j < k ==> ok(order[j])
    decreases |order|
  {
    var s := Deliver(r, order[0], ok(order[0]));
    var end := DispatchAll(s, order[1..], ok);
    DeliveriesStay(s, order[1..], ok);
    assert s.delivered[|r.delivered|] == Delivery(order[0], r.today, r.now);
    if k == 0 {
      assert end.delivered[|r.delivered|] == s.delivered[|r.delivered|];
    } else {
      assert forall m :: 0 <= m < |r.delivered| ==> s.delivered[m] == r.delivered[m];
      assert !WasDelivered(s, order[k], r.today);
      if ok(order[0]) {
        DroppedIffFrozenEarlier(s, order[1..], ok, k - 1);
        assert forall j :: 1 <= j < k ==> order[j] == order[1..][j - 1];
      }
    }
  }
}
