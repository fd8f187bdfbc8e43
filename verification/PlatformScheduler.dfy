// The runner and its schedule as they are: a status moved by guarded calls, and
// dictionaries of dates written by registration and by ticks.

module PlatformScheduler {
  import opened Scheduler

  class StrategyRunner {
    var status: Status
    ghost var log: seq<Call>

    ghost function State(): Runner
      reads this
    {
      Runner(status, log)
    }

    /** The hooks called so far are in a lawful order, and the status follows from them. */
    ghost predicate Valid()
      reads this
    {
      Lawful(State())
    }

    constructor ()
      ensures Valid() && State() == Unstarted
    {
      status, log := Created, [];
    }

    /** Recovery first; a failed recovery leaves the runner frozen. Refused unless fresh. */
    method Start(recovers: bool) returns (raised: bool)
      requires Valid()
      modifies this
      ensures Valid() && raised == !old(status).Created?
      ensures State() == if raised then old(State()) else Started(old(State()), recovers)
    {
      RunnerStaysLawful(State(), Recover, recovers);
      if !status.Created? {
        return true;
      }
      var done := RunGuarded(Recover, recovers);
      if done {
        status := Running;
      }
      return false;
    }

    /** Call a hook; a failure freezes the instance instead of escaping. */
    method RunGuarded(hook: Hook, ok: bool) returns (done: bool)
      modifies this
      ensures done == ok && log == old(log) + [Call(hook, ok)]
      ensures status == if ok then old(status) else Frozen
    {
      log := log + [Call(hook, ok)];
      if !ok {
        status := Frozen;
      }
      return ok;
    }

    method Dispatch(hook: Hook, ok: bool)
      requires Valid() && hook.Event()
      modifies this
      ensures Valid() && State() == Dispatched(old(State()), hook, ok)
    {
      RunnerStaysLawful(State(), hook, ok);
      if !status.Running? {
        return;
      }
      var done := RunGuarded(hook, ok);
    }

    /** The shutdown hook's own failure does not keep the runner from stopping. */
    method Stop(ok: bool)
      requires Valid()
      modifies this
      ensures Valid() && State() == Halted(old(State()), ok)
    {
      RunnerStaysLawful(State(), OnShutdown, ok);
      if status.Stopped? || status.Frozen? {
        return;
      }
      log := log + [Call(OnShutdown, ok)];
      status := Stopped;
    }
  }

  class RunnerSchedule {
    const runner: StrategyRunner
    const triggers: seq<Trigger>
    var firedOn: map<string, Date>
    var skippedOn: map<string, Date>
    ghost var today: Date
    ghost var now: Time
    ghost var delivered: seq<Delivery>
    ghost var marked: set<(string, Date)>

    ghost function Between(): Registration
      reads this, runner
    {
      Registration(runner.State(), triggers, firedOn, skippedOn, today, now, {}, delivered, marked)
    }

    ghost predicate Valid(calendar: Date -> bool)
      reads this, runner
    {
      UniqueNames(triggers) && Sound(Between(), calendar)
    }

    /** Registration: start the runner, then settle what was missed earlier today. */
    constructor (
        created: StrategyRunner, triggers: seq<Trigger>, recovers: bool, today: Date, now: Time, calendar: Date -> bool)
      requires created.State() == Unstarted && UniqueNames(triggers)
      modifies created
      ensures runner == created && this.triggers == triggers
      ensures Between() == Register(triggers, recovers, today, now, calendar) && Valid(calendar)
    {
      runner, this.triggers := created, triggers;
      firedOn, skippedOn, delivered, marked := map[], map[], [], {};
      this.today, this.now := today, now;
      new;
      var raised := created.Start(recovers);
      SeedMissedTriggers(today, now, calendar(today));
      RegisterIsSound(triggers, recovers, today, now, calendar);
    }

    method SeedMissedTriggers(today: Date, now: Time, trading: bool)
      requires UniqueNames(triggers) && skippedOn == map[]
      modifies this`skippedOn
      ensures skippedOn == Seeded(triggers, today, now, trading)
      ensures forall t :: t in triggers ==>
        (On(skippedOn, t.name, today) <==> trading && now >= t.at && t.catchUp == Skip)
    {
      forall t, u | t in triggers && u in triggers && t.name == u.name ensures t == u { NamesIdentify(triggers, t, u); }
      if !trading {
        return;
      }
      for n := 0 to |triggers|
        invariant skippedOn == Seeded(triggers[..n], today, now, true)
      {
        var t := triggers[n];
        assert triggers[..n + 1] == triggers[..n] + [t];
        SeededSnoc(triggers[..n], t, today, now);
        if now >= t.at && t.catchUp.Skip? {
          skippedOn := skippedOn[t.name := today];
        }
      }
      assert triggers[..|triggers|] == triggers;
    }

    /** The names of what is due, in the order the triggers were declared. */
    method CollectDue(today: Date, now: Time, trading: bool) returns (due: seq<string>)
      requires UniqueNames(triggers)
      ensures forall name :: name in due <==> name in DueNames(Between(), today, now, trading)
      ensures forall m, n :: 0 <= m < n < |due| ==> due[m] != due[n]
    {
      due := [];
      if !runner.status.Running? || !trading {
        return;
      }
      for n := 0 to |triggers|
        invariant forall name :: name in due <==>
          exists m :: 0 <= m < n && triggers[m].name == name && IsDue(Between(), triggers[m], today, now)
        invariant forall i, j :: 0 <= i < j < |due| ==> due[i] != due[j]
      {
        var t := triggers[n];
        if On(firedOn, t.name, today) || On(skippedOn, t.name, today) {
          continue;
        }
        if now >= t.at {
          assert t.name !in due;
          due := due + [t.name];
        }
      }
    }

    /** One pass: collect what is due, mark it all fired, then dispatch each. */
    method Tick(today: Date, now: Time, calendar: Date -> bool, ok: string -> bool) returns (ghost due: seq<string>)
      requires Valid(calendar) && Enabled(Between(), Event.Tick(today, now))
      modifies this, runner
      ensures Valid(calendar)
      ensures forall name :: name in due <==> name in DueNames(old(Between()), today, now, calendar(today))
      ensures forall m, n :: 0 <= m < n < |due| ==> due[m] != due[n]
      ensures Between() == DispatchAll(Step(old(Between()), Event.Tick(today, now), calendar), due, ok)
    {
      ghost var start := Between();
      var names := CollectDue(today, now, calendar(today));
      due := names;
      TickThenDispatch(start, today, now, names, ok, calendar);
      MarkFired(names, today);
      this.today, this.now, marked := today, now, marked + (set name | name in names :: (name, today));
      assert Partly(Between(), names) == Marked(start, today, now, names);
      DispatchEach(names, ok);
    }

    /** Every dispatch of a tick, one after the other; a frozen runner ignores the rest. */
    method DispatchEach(names: seq<string>, ok: string -> bool)
      requires runner.Valid() && forall m, n :: 0 <= m < n < |names| ==> names[m] != names[n]
      modifies this`delivered, runner
      ensures Between() == DispatchAll(Partly(old(Between()), names), names, ok)
    {
      for n := 0 to |names|
        invariant runner.Valid()
        invariant DispatchAll(Partly(old(Between()), names), names, ok) ==
          DispatchAll(Partly(Between(), names[n..]), names[n..], ok)
      {
        ghost var before := Partly(Between(), names[n..]);
        assert names[n..] == [names[n]] + names[n + 1..];
        if runner.status.Running? {
          delivered := delivered + [Delivery(names[n], today, now)];
        }
        runner.Dispatch(OnTrigger(names[n]), ok(names[n]));
        PartlyNext(before, Between(), names, n, ok);
      }
      assert names[|names|..] == [];
    }

    method MarkFired(names: seq<string>, today: Date)
      modifies this`firedOn
      ensures firedOn == old(firedOn) + map name | name in names :: today
    {
      for n := 0 to |names|
        invariant firedOn == old(firedOn) + map name | name in names[..n] :: today
      {
        assert names[..n + 1] == names[..n] + [names[n]];
        firedOn := firedOn[names[n] := today];
      }
      assert names[..|names|] == names;
    }
  }

  lemma PartlyNext(before: Registration, after: Registration, names: seq<string>, n: nat, ok: string -> bool)
    requires n < |names| && forall i, j :: 0 <= i < j < |names| ==> names[i] != names[j]
    requires before == Partly(before, names[n..])
    requires after == Deliver(before, names[n], ok(names[n])).(pending := {})
    ensures Partly(after, names[n + 1..]) == Deliver(before, names[n], ok(names[n]))
  {
    assert names[n..] == [names[n]] + names[n + 1..];
  }

  lemma SeededSnoc(triggers: seq<Trigger>, t: Trigger, today: Date, now: Time)
    ensures Seeded(triggers + [t], today, now, true) ==
      if Missed(t, now) then Seeded(triggers, today, now, true)[t.name := today] else Seeded(triggers, today, now, true)
  {
    forall u ensures u in triggers + [t] <==> u in triggers || u == t {}
  }

  /** Midway through a tick, with these names still to dispatch. */
  ghost function Partly(r: Registration, left: seq<string>): Registration {
    r.(pending := set name | name in left)
  }

  /** A tick that has marked these names fired and has yet to dispatch them. */
  ghost function Marked(r: Registration, today: Date, now: Time, names: seq<string>): Registration {
    r.(today := today, now := now, pending := (set name | name in names),
       firedOn := r.firedOn + (map name | name in names :: today),
       marked := r.marked + (set name | name in names :: (name, today)))
  }

  lemma MarkedIsTicked(r: Registration, today: Date, now: Time, names: seq<string>, calendar: Date -> bool)
    requires Enabled(r, Event.Tick(today, now))
    requires forall name :: name in names <==> name in DueNames(r, today, now, calendar(today))
    ensures Marked(r, today, now, names) == Step(r, Event.Tick(today, now), calendar)
  {
    var ticked, due := Step(r, Event.Tick(today, now), calendar), DueNames(r, today, now, calendar(today));
    assert due == set name | name in names;
    assert Marked(r, today, now, names).firedOn == ticked.firedOn;
    assert Marked(r, today, now, names).marked == ticked.marked;
  }

  lemma TickThenDispatch(
      r: Registration, today: Date, now: Time, names: seq<string>, ok: string -> bool, calendar: Date -> bool)
    requires Sound(r, calendar) && Enabled(r, Event.Tick(today, now))
    requires forall name :: name in names <==> name in DueNames(r, today, now, calendar(today))
    requires forall m, n :: 0 <= m < n < |names| ==> names[m] != names[n]
    ensures Marked(r, today, now, names) == Step(r, Event.Tick(today, now), calendar)
    ensures Sound(DispatchAll(Marked(r, today, now, names), names, ok), calendar)
  {
    MarkedIsTicked(r, today, now, names, calendar);
    TickIsSound(r, today, now, calendar);
    DispatchAllKeepsSound(Marked(r, today, now, names), names, ok, calendar);
  }

  lemma {:induction false} DispatchAllKeepsSound(
      r: Registration, order: seq<string>, ok: string -> bool, calendar: Date -> bool)
    requires Sound(r, calendar) && r.pending == set name | name in order
    requires forall m, n :: 0 <= m < n < |order| ==> order[m] != order[n]
    ensures Sound(DispatchAll(r, order, ok), calendar) && DispatchAll(r, order, ok).pending == {}
    decreases |order|
  {
    if order != [] {
      DispatchIsSound(r, order[0], ok(order[0]), calendar);
      assert order == [order[0]] + order[1..];
      DispatchAllKeepsSound(Deliver(r, order[0], ok(order[0])), order[1..], ok, calendar);
    }
  }
}
