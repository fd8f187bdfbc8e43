// The daily loss limit of an account: a read-only decision, then a best-effort
// persist of the day's figures and of the breach latch, under optimistic versions
// and any interleaving with other instances' checks. And the fail-fast entry check.

module RiskLatch {
  import opened Broker

  /** The account's row for one day. */
  datatype Row = Row(limit: real, realized: real, unrealized: real, breached: bool, version: nat)

  /** What a check sets out to write after deciding. */
  datatype Plan = Plan(limit: real, realized: real, unrealized: real, latch: bool)

  function EffectiveLimit(row: Option<Row>, limit: real): real {
    if row.Some? then row.value.limit else limit
  }

  function Unrealized(row: Option<Row>): real {
    if row.Some? then row.value.unrealized else 0.0
  }

  predicate Breached(row: Option<Row>) {
    row.Some? && row.value.breached
  }

  predicate Crosses(row: Option<Row>, limit: real, realized: real) {
    realized + Unrealized(row) <= -EffectiveLimit(row, limit)
  }

  /** The verdict of one check; no configured limit means nothing to enforce. */
  predicate Fails(row: Option<Row>, limit: Option<real>, realized: real) {
    limit.Some? && (Breached(row) || Crosses(row, limit.value, realized))
  }

  function PlanOf(row: Option<Row>, limit: real, realized: real): Plan {
    Plan(limit, realized, Unrealized(row), Crosses(row, limit, realized))
  }

  function NewRow(limit: real): Row {
    Row(limit, 0.0, 0.0, false, 0)
  }

  function Written(base: Row, p: Plan): Row {
    base.(realized := p.realized, unrealized := p.unrealized, breached := base.breached || p.latch)
  }

  /** How a persist ends: written (or nothing to write), lost to another writer, or,
      when another writer created the row first, started over on that row. */
  datatype Ending = Kept(row: Option<Row>) | Lost | Again(seen: Row)

  function Persisted(row: Option<Row>, seen: Option<Row>, p: Plan): Ending {
    match seen
    case None => (match row case None => Kept(Some(Written(NewRow(p.limit), p))) case Some(r) => Again(r))
    case Some(s) =>
      if Written(s, p) == s then Kept(row)
      else if row.None? || row.value.version != s.version then Lost
      else Kept(Some(Written(row.value, p).(version := s.version + 1)))
  }

  // ---- Every interleaving ----

  type Tid = nat

  /** The day so far: the row, each check's verdict and plan, what each persist has
      loaded, and how it ended. */
  datatype Day = Day(
    row: Option<Row>, failed: map<Tid, bool>, plans: map<Tid, Plan>, seen: map<Tid, Option<Row>>, kept: map<Tid, bool>)

  const Morning := Day(None, map[], map[], map[], map[])

  datatype Event = Decide(t: Tid, limit: Option<real>, realized: real) | Load(t: Tid) | Commit(t: Tid)

  predicate Enabled(d: Day, e: Event) {
    match e
    case Decide(t, _, _) => t !in d.failed
    case Load(t) => t in d.plans && t !in d.seen
    case Commit(t) => t in d.plans && t in d.seen && t !in d.kept
  }

  function Step(d: Day, e: Event): Day
    requires Enabled(d, e)
  {
    match e
    case Decide(t, limit, realized) =>
      var judged := d.(failed := d.failed[t := Fails(d.row, limit, realized)]);
      if limit.None? then judged else judged.(plans := d.plans[t := PlanOf(d.row, limit.value, realized)])
    case Load(t) => d.(seen := d.seen[t := d.row])
    case Commit(t) =>
      match Persisted(d.row, d.seen[t], d.plans[t])
      case Kept(row) => d.(row := row, kept := d.kept[t := true])
      case Lost => d.(kept := d.kept[t := false])
      case Again(r) => d.(seen := d.seen[t := Some(r)])
  }

  ghost predicate CanRun(d: Day, es: seq<Event>)
    decreases |es|
  {
    es != [] ==> Enabled(d, es[0]) && CanRun(Step(d, es[0]), es[1..])
  }

  ghost function Run(d: Day, es: seq<Event>): Day
    requires CanRun(d, es)
    decreases |es|
  {
    if es == [] then d else Run(Step(d, es[0]), es[1..])
  }

  /** Loaded rows are rows of the past: an unchanged version means an unchanged row. */
  ghost predicate Sound(d: Day) {
    && d.kept.Keys <= d.seen.Keys && d.seen.Keys <= d.plans.Keys <= d.failed.Keys
    && (forall t :: t in d.seen && d.seen[t].Some? ==> SeenBefore(d.seen[t].value, d.row))
    && (Breached(d.row) <==> exists t :: Latched(d, t))
    && (forall t :: t in d.plans && d.plans[t].latch ==> d.failed[t])
  }

  ghost predicate SeenBefore(s: Row, row: Option<Row>) {
    row.Some? && s.version <= row.value.version && s.limit == row.value.limit
    && (s.version == row.value.version ==> s == row.value)
    && (s.breached ==> row.value.breached)
  }

  /** The check decided on a crossing and its persist went through. */
  ghost predicate Latched(d: Day, t: Tid) {
    t in d.kept && t in d.plans && d.kept[t] && d.plans[t].latch
  }

  /** `later` comes after `earlier`: the limit stays, a breach stays, verdicts stay. */
  ghost predicate Follows(earlier: Day, later: Day) {
    && (earlier.row.Some? ==> later.row.Some? && later.row.value.limit == earlier.row.value.limit)
    && (Breached(earlier.row) ==> Breached(later.row))
    && (forall t :: t in earlier.failed ==> t in later.failed && later.failed[t] == earlier.failed[t])
    && (forall t :: Latched(earlier, t) ==> Latched(later, t))
  }

  lemma CommitFollows(d: Day, t: Tid)
    requires Sound(d) && Enabled(d, Commit(t))
    ensures Sound(Step(d, Commit(t))) && Follows(d, Step(d, Commit(t)))
  {
    var e := Step(d, Commit(t));
    var s, p := d.seen[t], d.plans[t];
    match Persisted(d.row, s, p)
    case Again(_) =>
      assert forall u :: Latched(e, u) <==> Latched(d, u);
    case Lost =>
      assert forall u :: Latched(e, u) <==> Latched(d, u);
    case Kept(row) =>
      assert forall u :: Latched(e, u) <==> Latched(d, u) || (u == t && p.latch);
      assert Breached(row) <==> Breached(d.row) || p.latch;
      if p.latch {
        assert Latched(e, t);
      } else if u :| Latched(d, u) {
        assert Latched(e, u);
      }
  }

  lemma StepFollows(d: Day, e: Event)
    requires Sound(d) && Enabled(d, e)
    ensures Sound(Step(d, e)) && Follows(d, Step(d, e))
  {
    match e
    case Commit(t) => CommitFollows(d, t);
    case Load(t) => assert forall u :: Latched(Step(d, e), u) <==> Latched(d, u);
    case Decide(t, _, _) => assert forall u :: Latched(Step(d, e), u) <==> Latched(d, u);
  }

  /** Whatever interleaves: the limit is fixed once the row exists, a breach is never
      undone, and no persist, won or lost, changes a verdict already given. */
  lemma {:induction false} RunFollows(d: Day, es: seq<Event>)
    requires Sound(d) && CanRun(d, es)
    ensures Sound(Run(d, es)) && Follows(d, Run(d, es))
    decreases |es|
  {
    if es != [] {
      StepFollows(d, es[0]);
      RunFollows(Step(d, es[0]), es[1..]);
    }
  }

  /** The day is latched exactly when some check's crossing was persisted. */
  lemma BreachedIffPersisted(es: seq<Event>)
    requires CanRun(Morning, es)
    ensures Breached(Run(Morning, es).row) <==> exists t :: Latched(Run(Morning, es), t)
  {
    RunFollows(Morning, es);
  }

  lemma {:induction false} RunConcat(d: Day, a: seq<Event>, b: seq<Event>)
    requires CanRun(d, a + b)
    ensures CanRun(d, a) && CanRun(Run(d, a), b) && Run(d, a + b) == Run(Run(d, a), b)
    decreases |a|
  {
    if a == [] {
      assert a + b == b;
    } else {
      assert (a + b)[0] == a[0] && (a + b)[1..] == a[1..] + b;
      RunConcat(Step(d, a[0]), a[1..], b);
    }
  }

  ghost predicate SameLoad(d: Day, e: Day, t: Tid) {
    && t in d.plans && t in d.seen && t !in d.kept && t in e.plans && t in e.seen && t !in e.kept
    && e.plans[t] == d.plans[t] && e.seen[t] == d.seen[t]
  }

  lemma StepKeepsLoad(d: Day, e: Event, t: Tid)
    requires Sound(d) && Enabled(d, e) && t in d.plans && t in d.seen && t !in d.kept && e != Commit(t)
    ensures SameLoad(d, Step(d, e), t)
  {
  }

  /** What a persist set out to write and the row it loaded stay as they are until it commits. */
  lemma {:induction false} LoadStays(d: Day, es: seq<Event>, t: Tid)
    requires Sound(d) && CanRun(d, es) && t in d.plans && t in d.seen && t !in d.kept && Commit(t) !in es
    ensures Sound(Run(d, es)) && SameLoad(d, Run(d, es), t) && Follows(d, Run(d, es))
    decreases |es|
  {
    if es != [] {
      assert es == [es[0]] + es[1..];
      StepFollows(d, es[0]);
      StepKeepsLoad(d, es[0], t);
      LoadStays(Step(d, es[0]), es[1..], t);
    }
  }

  /** A persist of an existing row is kept exactly when nobody else wrote the row since
      it loaded it, or it has nothing to write. */
  lemma KeptIffUnraced(d: Day, t: Tid, es: seq<Event>)
    requires Sound(d) && d.row.Some? && CanRun(d, [Load(t)] + (es + [Commit(t)])) && Commit(t) !in es
    ensures CanRun(Step(d, Load(t)), es)
    ensures var (before, after) := (Run(Step(d, Load(t)), es), Run(d, [Load(t)] + (es + [Commit(t)])));
      t in after.kept && (after.kept[t] <==> before.row == d.row || Written(d.row.value, d.plans[t]) == d.row.value)
  {
    OneCommit(d, t, es);
  }

  /** The commit that finishes a crossing's persist leaves the day latched exactly when
      the row is as the persist last saw it, or somebody else had latched it by then. */
  lemma FinishLatchesIff(d: Day, t: Tid)
    requires Sound(d) && Enabled(d, Commit(t)) && d.plans[t].latch
    ensures t in Step(d, Commit(t)).kept <==> d.seen[t].Some? || d.row.None?
    ensures t in Step(d, Commit(t)).kept ==>
      (Breached(Step(d, Commit(t)).row) <==> d.seen[t] == d.row || Breached(d.row))
  {
  }

  /** So a persist whose first attempt ends it latches the day exactly when nobody else
      wrote the row between its load and its commit, or had latched it by then. It is
      not ended there only when somebody else created the row in between. */
  lemma CrossingLatchesIff(d: Day, t: Tid, es: seq<Event>)
    requires Sound(d) && CanRun(d, [Load(t)] + (es + [Commit(t)])) && Commit(t) !in es && d.plans[t].latch
    ensures CanRun(Step(d, Load(t)), es)
    ensures var (before, after) := (Run(Step(d, Load(t)), es), Run(d, [Load(t)] + (es + [Commit(t)])));
      && (t in after.kept <==> d.row.Some? || before.row.None?)
      && (t in after.kept ==> (Breached(after.row) <==> before.row == d.row || Breached(before.row)))
  {
    OneCommit(d, t, es);
    FinishLatchesIff(Run(Step(d, Load(t)), es), t);
  }

  /** And a persist that somebody else forestalled by creating the row starts over on
      that row, and latches the day exactly when nobody else wrote it between the
      restart and the next commit, or had latched it by then. */
  lemma RestartLatchesIff(d: Day, t: Tid, es: seq<Event>, more: seq<Event>)
    requires Sound(d) && CanRun(d, [Load(t)] + (es + [Commit(t)])) && Commit(t) !in es && d.plans[t].latch
    requires var restarted := Run(d, [Load(t)] + (es + [Commit(t)]));
      t !in restarted.kept && CanRun(restarted, more + [Commit(t)]) && Commit(t) !in more
    ensures var restarted := Run(d, [Load(t)] + (es + [Commit(t)]));
      && CanRun(restarted, more)
      && var (before, after) := (Run(restarted, more), Run(restarted, more + [Commit(t)]));
      && t in after.kept
      && (Breached(after.row) <==> before.row == restarted.row || Breached(before.row))
  {
    OneCommit(d, t, es);
    Restarts(Run(Step(d, Load(t)), es), t);
    FinishesAfter(Run(d, [Load(t)] + (es + [Commit(t)])), t, more);
  }

  lemma Restarts(d: Day, t: Tid)
    requires Sound(d) && Enabled(d, Commit(t)) && t !in Step(d, Commit(t)).kept
    ensures Sound(Step(d, Commit(t))) && Step(d, Commit(t)) == d.(seen := d.seen[t := d.row]) && d.row.Some?
  {
    CommitFollows(d, t);
  }

  lemma FinishesAfter(d: Day, t: Tid, es: seq<Event>)
    requires Sound(d) && t in d.plans && t in d.seen && t !in d.kept && d.plans[t].latch
    requires d.row.Some? && d.seen[t] == d.row && CanRun(d, es + [Commit(t)]) && Commit(t) !in es
    ensures CanRun(d, es)
    ensures var (before, after) := (Run(d, es), Run(d, es + [Commit(t)]));
      t in after.kept && (Breached(after.row) <==> before.row == d.row || Breached(before.row))
  {
    NextCommit(d, t, es);
    FinishLatchesIff(Run(d, es), t);
  }

  lemma NextCommit(d: Day, t: Tid, es: seq<Event>)
    requires Sound(d) && t in d.plans && t in d.seen && t !in d.kept
    requires CanRun(d, es + [Commit(t)]) && Commit(t) !in es
    ensures CanRun(d, es)
    ensures var before := Run(d, es);
      && Enabled(before, Commit(t)) && Run(d, es + [Commit(t)]) == Step(before, Commit(t))
      && SameLoad(d, before, t) && Sound(before) && Follows(d, before)
  {
    RunConcat(d, es, [Commit(t)]);
    LoadStays(d, es, t);
    assert [Commit(t)][1..] == [];
  }

  lemma OneCommit(d: Day, t: Tid, es: seq<Event>)
    requires Sound(d) && CanRun(d, [Load(t)] + (es + [Commit(t)])) && Commit(t) !in es
    ensures CanRun(Step(d, Load(t)), es)
    ensures var before := Run(Step(d, Load(t)), es);
      && Enabled(before, Commit(t)) && Run(d, [Load(t)] + (es + [Commit(t)])) == Step(before, Commit(t))
      && before.seen[t] == d.row && before.plans[t] == d.plans[t] && Sound(before) && Follows(d, before)
      && (d.row.Some? ==> SeenBefore(d.row.value, before.row))
  {
    var rest := es + [Commit(t)];
    assert ([Load(t)] + rest)[0] == Load(t) && ([Load(t)] + rest)[1..] == rest;
    StepFollows(d, Load(t));
    NextCommit(Step(d, Load(t)), t, es);
  }

  /** Once a crossing is persisted, every later check that day under a configured
      limit fails, at whatever profit and limit. */
  lemma LatchHolds(es: seq<Event>, t: Tid, more: seq<Event>, u: Tid, limit: Option<real>, realized: real)
    requires CanRun(Morning, es) && Latched(Run(Morning, es), t) && CanRun(Run(Morning, es), more)
    requires var d := Run(Run(Morning, es), more); Enabled(d, Decide(u, limit, realized)) && limit.Some?
    ensures Step(Run(Run(Morning, es), more), Decide(u, limit, realized)).failed[u]
  {
    RunFollows(Morning, es);
    RunFollows(Run(Morning, es), more);
  }

  /** A future check is certain to fail, whatever the profit, only on a latched row. */
  lemma CertainIffBreached(row: Option<Row>, limit: real)
    ensures (forall realized: real :: Fails(row, Some(limit), realized)) <==> Breached(row)
  {
    if !Breached(row) {
      assert !Fails(row, Some(limit), 1.0 - Unrealized(row) - EffectiveLimit(row, limit));
    }
  }

  /** A lost race does lose the latch: check 1 crosses the limit and fails, but check
      2's figures are written in between, and a third check at a recovered profit
      passes. The method's own comment promises that the first crossing ends the day. */
  lemma LostRaceForgetsTheBreach(before: seq<Event>, race: seq<Event>)
    requires before == BeforeRace() && race == Race()
    ensures CanRun(Morning, before + race)
    ensures var d := Run(Morning, before + race);
      d.failed == map[0 := false, 1 := true, 2 := false, 3 := false] && !Breached(d.row)
  {
    var c := Crossing();
    ReachesCrossing(before, c);
    RaceLost(race, c);
    RunAppend(Morning, before, race);
  }

  lemma ReachesCrossing(before: seq<Event>, c: Day)
    requires before == BeforeRace() && c == Crossing()
    ensures CanRun(Morning, before) && Run(Morning, before) == c
  {
    var crosses := [Decide(1, Some(100.0), -120.0), Load(1)];
    var start := Checked(Morning, 0, 100.0, 0.0);
    Alone(Morning, 0, 100.0, 0.0);
    RunsThrough(start, crosses, [start, Step(start, crosses[0]), c]);
    RunAppend(Morning, Whole(0, 100.0, 0.0), crosses);
    assert before == Whole(0, 100.0, 0.0) + crosses;
  }

  lemma RaceLost(race: seq<Event>, c: Day)
    requires race == Race() && c == Crossing()
    ensures CanRun(c, race)
    ensures Run(c, race).failed == map[0 := false, 1 := true, 2 := false, 3 := false] && !Breached(Run(c, race).row)
  {
    var ends := [Commit(1), Decide(3, Some(100.0), -80.0)];
    var d := Checked(c, 2, 100.0, -90.0);
    Alone(c, 2, 100.0, -90.0);
    assert d.row == Some(Row(100.0, -90.0, 0.0, false, 1)) && d.seen[1] == c.row;
    RunsThrough(d, ends, [d, Step(d, ends[0]), Step(Step(d, ends[0]), ends[1])]);
    RunAppend(c, Whole(2, 100.0, -90.0), ends);
    assert race == Whole(2, 100.0, -90.0) + ends;
  }

  function BeforeRace(): seq<Event> {
    [Decide(0, Some(100.0), 0.0), Load(0), Commit(0), Decide(1, Some(100.0), -120.0), Load(1)]
  }

  function Race(): seq<Event> {
    [Decide(2, Some(100.0), -90.0), Load(2), Commit(2), Commit(1), Decide(3, Some(100.0), -80.0)]
  }

  /** The lost race when check 1 has crossed the limit and loaded the row. */
  function Crossing(): Day {
    var row := Some(NewRow(100.0));
    Day(row, map[0 := false, 1 := true], map[0 := Plan(100.0, 0.0, 0.0, false), 1 := Plan(100.0, -120.0, 0.0, true)],
        map[0 := None, 1 := row], map[0 := true])
  }

  function Whole(t: Tid, limit: real, realized: real): seq<Event> {
    [Decide(t, Some(limit), realized), Load(t), Commit(t)]
  }

  /** The day after a check nobody interleaves with. */
  function Checked(d: Day, t: Tid, limit: real, realized: real): Day {
    var p := PlanOf(d.row, limit, realized);
    Day(
      if d.row.Some? && Written(d.row.value, p) == d.row.value then d.row
      else if d.row.Some? then Some(Written(d.row.value, p).(version := d.row.value.version + 1))
      else Some(Written(NewRow(limit), p)),
      d.failed[t := Fails(d.row, Some(limit), realized)], d.plans[t := p], d.seen[t := d.row], d.kept[t := true])
  }

  lemma Alone(d: Day, t: Tid, limit: real, realized: real)
    requires t !in d.failed && t !in d.seen && t !in d.kept
    ensures CanRun(d, Whole(t, limit, realized)) && Run(d, Whole(t, limit, realized)) == Checked(d, t, limit, realized)
  {
    var es := Whole(t, limit, realized);
    var decided := Step(d, es[0]);
    var loaded := Step(decided, es[1]);
    RunsThrough(d, es, [d, decided, loaded, Step(loaded, es[2])]);
  }

  lemma {:induction false} RunAppend(d: Day, a: seq<Event>, b: seq<Event>)
    requires CanRun(d, a) && CanRun(Run(d, a), b)
    ensures CanRun(d, a + b) && Run(d, a + b) == Run(Run(d, a), b)
    decreases |a|
  {
    if a == [] {
      assert a + b == b;
    } else {
      assert (a + b)[0] == a[0] && (a + b)[1..] == a[1..] + b;
      RunAppend(Step(d, a[0]), a[1..], b);
    }
  }

  /** A rival that only creates the row does not undo a crossing: check 0 starts over
      on the row check 1 created, and the day ends latched. */
  lemma ForestalledCrossingLatches(decided: seq<Event>, commits: seq<Event>)
    requires decided == [Decide(0, Some(100.0), -120.0), Decide(1, Some(100.0), -90.0), Load(0), Load(1)]
    requires commits == [Commit(1), Commit(0), Commit(0)]
    ensures CanRun(Morning, decided + commits)
    ensures var d := Run(Morning, decided + commits); d.failed == map[0 := true, 1 := false] && Breached(d.row)
  {
    var (loss, small) := (Plan(100.0, -120.0, 0.0, true), Plan(100.0, -90.0, 0.0, false));
    var ready := Day(None, map[0 := true, 1 := false], map[0 := loss, 1 := small], map[0 := None, 1 := None], map[]);
    var s1 := Step(Morning, decided[0]);
    var s2 := Step(s1, decided[1]);
    RunsThrough(Morning, decided, [Morning, s1, s2, Step(s2, decided[2]), ready]);
    CommitsAfter(ready, commits);
    RunAppend(Morning, decided, commits);
  }

  lemma CommitsAfter(ready: Day, commits: seq<Event>)
    requires ready.row.None? && ready.seen == map[0 := None, 1 := None] && ready.kept == map[]
    requires ready.plans.Keys == {0, 1} && ready.plans[0].latch && commits == [Commit(1), Commit(0), Commit(0)]
    ensures CanRun(ready, commits)
    ensures var d := Run(ready, commits); d.failed == ready.failed && Breached(d.row)
  {
    var created := Step(ready, Commit(1));
    var restarted := Step(created, Commit(0));
    RunsThrough(ready, commits, [ready, created, restarted, Step(restarted, Commit(0))]);
  }

  lemma {:induction false} RunsThrough(d: Day, es: seq<Event>, states: seq<Day>)
    requires |states| == |es| + 1 && states[0] == d
    requires forall n :: 0 <= n < |es| ==> Enabled(states[n], es[n]) && states[n + 1] == Step(states[n], es[n])
    ensures CanRun(d, es) && Run(d, es) == states[|es|]
    decreases |es|
  {
    if es != [] {
      RunsThrough(states[1], es[1..], states[1..]);
    }
  }

  // ---- Which limit, which figures ----

  /** The verdict of a check in plain figures: without a configured limit it passes; a
      latched day fails; and the day's loss is held against the limit its row was
      created with, or against the configured one while there is no row. */
  lemma VerdictIff(d: Day, t: Tid, limit: Option<real>, realized: real)
    requires Enabled(d, Decide(t, limit, realized))
    ensures var failed := Step(d, Decide(t, limit, realized)).failed[t];
      && (limit.None? ==> !failed)
      && (limit.Some? && d.row.None? ==> (failed <==> realized <= -limit.value))
      && (limit.Some? && d.row.Some? ==>
            (failed <==> d.row.value.breached || realized + d.row.value.unrealized <= -d.row.value.limit))
  {
  }

  /** What a check sets out to write: its own figures, the unrealised profit it found, and
      the latch exactly when it saw a crossing itself. */
  lemma PlanIff(d: Day, t: Tid, limit: real, realized: real)
    requires Enabled(d, Decide(t, Some(limit), realized))
    ensures var plans := Step(d, Decide(t, Some(limit), realized)).plans;
      && t in plans && plans[t].limit == limit && plans[t].realized == realized
      && plans[t].unrealized == (if d.row.Some? then d.row.value.unrealized else 0.0)
      && (plans[t].latch <==>
            if d.row.Some? then realized + d.row.value.unrealized <= -d.row.value.limit else realized <= -limit)
  {
  }

  /** The row's limit is the one some check was configured with, and its figures are
      those some check was made at. */
  ghost predicate Sourced(d: Day, es: seq<Event>) {
    && (d.row.Some? ==> HasLimit(es, d.row.value.limit) && HasProfit(es, d.row.value.realized))
    && (forall t :: t in d.plans ==> HasLimit(es, d.plans[t].limit) && HasProfit(es, d.plans[t].realized))
  }

  ghost predicate HasLimit(es: seq<Event>, limit: real) {
    exists n :: 0 <= n < |es| && es[n].Decide? && es[n].limit == Some(limit)
  }

  ghost predicate HasProfit(es: seq<Event>, realized: real) {
    exists n :: 0 <= n < |es| && es[n].Decide? && es[n].realized == realized
  }

  lemma StepSourced(d: Day, es: seq<Event>, e: Event)
    requires Sound(d) && Sourced(d, es) && Enabled(d, e)
    ensures Sourced(Step(d, e), es + [e])
  {
    var longer := es + [e];
    assert longer[|es|] == e;
    forall l | HasLimit(es, l) ensures HasLimit(longer, l) {
      var n :| 0 <= n < |es| && es[n].Decide? && es[n].limit == Some(l);
      assert longer[n] == es[n];
    }
    forall x | HasProfit(es, x) ensures HasProfit(longer, x) {
      var n :| 0 <= n < |es| && es[n].Decide? && es[n].realized == x;
      assert longer[n] == es[n];
    }
  }

  lemma {:induction false} RunSourced(d: Day, before: seq<Event>, es: seq<Event>)
    requires Sound(d) && Sourced(d, before) && CanRun(d, es)
    ensures Sound(Run(d, es)) && Sourced(Run(d, es), before + es)
    decreases |es|
  {
    if es == [] {
      assert before + es == before;
    } else {
      StepFollows(d, es[0]);
      StepSourced(d, before, es[0]);
      RunSourced(Step(d, es[0]), before + [es[0]], es[1..]);
      Regroup(before, es);
    }
  }

  lemma Regroup(before: seq<Event>, es: seq<Event>)
    requires es != []
    ensures before + [es[0]] + es[1..] == before + es
  {
  }

  /** Once the row exists, however the day goes on, every check is held against the one
      limit some check of that morning was configured with: two checks in one state with
      different configured limits get the same verdict. */
  lemma LimitIsFixed(es: seq<Event>, more: seq<Event>, t: Tid, a: real, u: Tid, b: real, realized: real)
    requires CanRun(Morning, es) && Run(Morning, es).row.Some? && CanRun(Run(Morning, es), more)
    requires var d := Run(Run(Morning, es), more);
      Enabled(d, Decide(t, Some(a), realized)) && Enabled(d, Decide(u, Some(b), realized))
    ensures var (row, d) := (Run(Morning, es).row.value, Run(Run(Morning, es), more));
      && HasLimit(es, row.limit) && d.row.Some?
      && Step(d, Decide(t, Some(a), realized)).failed[t] == Step(d, Decide(u, Some(b), realized)).failed[u]
      && Step(d, Decide(t, Some(a), realized)).failed[t] ==
           (d.row.value.breached || realized + d.row.value.unrealized <= -row.limit)
  {
    RunSourced(Morning, [], es);
    assert [] + es == es;
    RunFollows(Morning, es);
    RunFollows(Run(Morning, es), more);
    VerdictIff(Run(Run(Morning, es), more), t, Some(a), realized);
    VerdictIff(Run(Run(Morning, es), more), u, Some(b), realized);
  }

  /** A persist that goes through leaves the figures its check was made at on the row. */
  lemma KeptRecords(d: Day, t: Tid)
    requires Sound(d) && Enabled(d, Commit(t)) && t in Step(d, Commit(t)).kept && Step(d, Commit(t)).kept[t]
    ensures var e := Step(d, Commit(t));
      d.row == d.seen[t] ==>
            && e.row.Some? && e.row.value.realized == d.plans[t].realized
            && e.row.value.unrealized == d.plans[t].unrealized
            && e.row.value.limit == if d.row.Some? then d.row.value.limit else d.plans[t].limit
  {
  }

  // ---- One check, in place ----

  class DailyRisk {
    var row: Option<Row>

    constructor ()
      ensures row == None
    {
      row := None;
    }

    /** Persist the day's figures. `rival` is what another writer committed after this
        persist looked: a new state of the row it loaded, or the row it was about to
        create, on which it then starts over. */
    method Persist(p: Plan, rival: Option<Row>) returns (lost: bool)
      requires rival.Some? && row.Some? ==> SeenBefore(row.value, rival) && rival != row
      modifies this
      ensures lost == (rival.Some? && old(row).Some? && Written(old(row).value, p) != old(row).value)
      ensures rival.Some? && old(row).Some? ==> row == rival
      ensures rival.None? || old(row).None? ==>
        row.Some? && Recorded(row.value, p) &&
        row.value.limit == EffectiveLimit(Found(old(row), rival), p.limit) &&
        (row.value.breached <==> Breached(Found(old(row), rival)) || p.latch)
      ensures rival.None? || old(row).None? ==>
        row.value.version ==
          match Found(old(row), rival)
          case None => 0
          case Some(base) => if Written(base, p) == base then base.version else base.version + 1
    {
      var loaded := if row.Some? then row.value else NewRow(p.limit);
      var created := row.None? && rival.None?;
      if row.None? && rival.Some? {
        loaded := rival.value;
      }
      var target := loaded.(realized := p.realized, unrealized := p.unrealized);
      if p.latch && !target.breached {
        target := target.(breached := true);
      }
      if row.Some? && rival.Some? {
        row := rival;
        return target != loaded;
      }
      row := Some(if target == loaded || created then target else target.(version := loaded.version + 1));
      return false;
    }

    /** Decide on what is there, then persist as best one can. The race over the persist
        never changes the verdict; but a failing check of a row that a rival then
        writes leaves the day latched only if the rival did. */
    method CheckDailyLossLimit(limit: Option<real>, realized: real, rival: Option<Row>) returns (passed: bool)
      requires rival.Some? && row.Some? ==> SeenBefore(row.value, rival) && rival != row
      modifies this
      ensures passed == (limit.None? ||
        match old(row)
        case None => realized > -limit.value
        case Some(r) => !r.breached && realized + r.unrealized > -r.limit)
      ensures limit.None? ==> row == old(row)
      ensures limit.Some? && rival.None? ==>
        row.Some? && row.value.realized == realized &&
        row.value.unrealized == if old(row).Some? then old(row).value.unrealized else 0.0
      ensures limit.Some? && rival.None? ==>
        row.Some? && (row.value.breached <==> !passed) && row.value.limit == EffectiveLimit(old(row), limit.value)
      ensures limit.Some? && rival.Some? && old(row).Some? ==> row == rival
      ensures limit.Some? && rival.Some? && old(row).None? ==>
        row.Some? && row.value.limit == rival.value.limit && (row.value.breached <==> rival.value.breached || !passed)
      ensures Breached(old(row)) ==> Breached(row)
    {
      if limit.None? {
        return true;
      }
      var alreadyBreached := row.Some? && row.value.breached;
      var unrealized := if row.Some? then row.value.unrealized else 0.0;
      var effective := if row.Some? then row.value.limit else limit.value;
      var crossed := realized + unrealized <= -effective;
      var lost := Persist(Plan(limit.value, realized, unrealized, crossed), rival);
      return !(alreadyBreached || crossed);
    }
  }

  /** The row a persist works on: its own, else the one a rival just created. */
  function Found(row: Option<Row>, rival: Option<Row>): Option<Row> {
    if row.Some? then row else rival
  }

  predicate Recorded(row: Row, p: Plan) {
    row.realized == p.realized && row.unrealized == p.unrealized
  }

  // ---- The entry check ----

  datatype Status = Passed | Failed | Skipped

  datatype Check = Check(name: string, status: Status)

  /** Up to the first failure everything passed; after it nothing was looked at. */
  ghost predicate FailFast(passes: seq<bool>, checks: seq<Check>) {
    && |checks| == |passes|
    && (forall k :: 0 <= k < |checks| && checks[k].status.Passed? ==> passes[k])
    && (forall k :: 0 <= k < |checks| && checks[k].status.Failed? ==> !passes[k])
    && (forall j, k :: 0 <= j < k < |checks| && !checks[k].status.Skipped? ==> checks[j].status.Passed?)
    && (forall k :: 0 <= k < |checks| && checks[k].status.Skipped? ==> FailedBefore(checks, k))
  }

  ghost predicate FailedBefore(checks: seq<Check>, k: int)
    requires k <= |checks|
  {
    exists j :: 0 <= j < k && checks[j].status.Failed?
  }

  lemma FailFastSnoc(passes: seq<bool>, pass: bool, checks: seq<Check>, next: Check)
    requires FailFast(passes, checks)
    requires next.status == if FailedBefore(checks, |checks|) then Skipped else if pass then Passed else Failed
    requires FailedBefore(checks, |checks|) || forall k :: 0 <= k < |checks| ==> checks[k].status.Passed?
    ensures FailFast(passes + [pass], checks + [next])
    ensures FailedBefore(checks + [next], |checks| + 1) <==> FailedBefore(checks, |checks|) || !pass
  {
    var longer := checks + [next];
    assert forall k :: 0 <= k < |checks| ==> longer[k] == checks[k];
    forall k | 0 <= k <= |checks| && FailedBefore(checks, k)
      ensures FailedBefore(longer, k) && FailedBefore(longer, |longer|)
    {
      var j :| 0 <= j < k && checks[j].status.Failed?;
      assert longer[j].status.Failed?;
    }
    assert longer[|checks|] == next;
  }

  /** The entry checks, in order, each paired with whether it would pass. An entry is
      approved exactly when all would; at most one check is reported as failed. */
  method ValidateEntry(names: seq<string>, passes: seq<bool>) returns (approved: bool, checks: seq<Check>)
    requires |names| == |passes|
    ensures FailFast(passes, checks) && forall k :: 0 <= k < |checks| ==> checks[k].name == names[k]
    ensures approved <==> forall k :: 0 <= k < |passes| ==> passes[k]
  {
    checks := [];
    var failed := false;
    for n := 0 to |names|
      invariant |checks| == n && FailFast(passes[..n], checks)
      invariant forall k :: 0 <= k < n ==> checks[k].name == names[k]
      invariant failed <==> FailedBefore(checks, n)
      invariant !failed ==> forall k :: 0 <= k < n ==> checks[k].status.Passed?
    {
      var next := Check(names[n], if failed then Skipped else if passes[n] then Passed else Failed);
      FailFastSnoc(passes[..n], passes[n], checks, next);
      assert passes[..n + 1] == passes[..n] + [passes[n]];
      checks := checks + [next];
      if !failed {
        failed := !passes[n];
      }
    }
    approved := !failed;
    assert passes[..|names|] == passes;
    if failed {
      var j :| 0 <= j < |checks| && checks[j].status.Failed?;
      assert !passes[j];
    }
  }
}
