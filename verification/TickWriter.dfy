// The tick writer: the queue, its counters and the writer's batch, changed in
// place one event at a time and tied to the places kept by `TickQueue`.

module TickWriter {
  import opened TickQueue

  ghost predicate Within(places: seq<nat>, n: nat) {
    forall x :: x in places ==> x < n
  }

  /** The ticks at the given places of the stream. */
  ghost function Pick<T>(stream: seq<T>, places: seq<nat>): seq<T>
    requires Within(places, |stream|)
  {
    seq(|places|, i requires 0 <= i < |places| => assert places[i] in places; stream[places[i]])
  }

  lemma PickLonger<T>(stream: seq<T>, tick: T, places: seq<nat>)
    requires Within(places, |stream|)
    ensures Within(places, |stream + [tick]|) && Pick(stream + [tick], places) == Pick(stream, places)
  {
    forall i | 0 <= i < |places| ensures places[i] < |stream| { assert places[i] in places; }
  }

  lemma PickConcat<T>(stream: seq<T>, a: seq<nat>, b: seq<nat>)
    requires Within(a, |stream|) && Within(b, |stream|)
    ensures Within(a + b, |stream|) && Pick(stream, a + b) == Pick(stream, a) + Pick(stream, b)
  {
  }

  /** The queue, the batch and the table hold the ticks at the pipe's places. */
  ghost predicate Images<T>(stream: seq<T>, p: Pipe, dq: seq<T>, batch: seq<T>, table: seq<T>) {
    && p.offered == |stream|
    && Within(p.queue, |stream|) && Within(p.batch, |stream|) && Within(p.written, |stream|)
    && dq == Pick(stream, p.queue) && batch == Pick(stream, p.batch) && table == Pick(stream, p.written)
  }

  lemma PickTail<T>(stream: seq<T>, places: seq<nat>, n: nat)
    requires Within(places, |stream|) && n <= |places|
    ensures Within(places[n..], |stream|) && Within(places[..n], |stream|)
    ensures Pick(stream, places[n..]) == Pick(stream, places)[n..]
    ensures Pick(stream, places[..n]) == Pick(stream, places)[..n]
  {
    forall x | x in places[n..] ensures x in places {}
    forall x | x in places[..n] ensures x in places {}
  }

  lemma ImagesOffered<T>(c: Config, p: Pipe, stream: seq<T>, tick: T, dq: seq<T>, batch: seq<T>, table: seq<T>)
    requires c.Ok() && Images(stream, p, dq, batch, table)
    ensures Images(stream + [tick], Offered(c, p), Enqueued(c, dq, tick), batch, table)
  {
    var all, n := stream + [tick], |stream|;
    PickLonger(stream, tick, p.queue);
    PickLonger(stream, tick, p.batch);
    PickLonger(stream, tick, p.written);
    assert Pick(all, [n]) == [tick];
    PickConcat(all, p.queue, [n]);
    if |p.queue| >= c.queueMax {
      PickTail(all, p.queue, 1);
      PickConcat(all, p.queue[1..], [n]);
    }
  }

  lemma WrittenKeeps<T>(c: Config, p: Pipe, stream: seq<T>, dq: seq<T>, batch: seq<T>, table: seq<T>)
    requires c.Ok() && Holds(c, p) && Images(stream, p, dq, batch, table) && p.batch != []
    ensures Holds(c, Step(c, p, WriteOk)) && Images(stream, Step(c, p, WriteOk), dq, [], table + batch)
  {
    StepKeeps(c, p, WriteOk);
    PickConcat(stream, p.written, p.batch);
  }

  /** A failed third attempt while stopping costs the batch; any other keeps it. */
  lemma FailedKeeps<T>(c: Config, p: Pipe, stream: seq<T>, dq: seq<T>, batch: seq<T>, table: seq<T>)
    requires c.Ok() && Holds(c, p) && Images(stream, p, dq, batch, table) && p.batch != []
    ensures Holds(c, Failed(p))
    ensures p.stopping && p.attempts + 1 >= 3 ==>
      Images(stream, Failed(p), dq, [], table) && |Failed(p).shed| + |Failed(p).lost| == |p.shed| + |p.lost| + |batch|
    ensures !(p.stopping && p.attempts + 1 >= 3) ==> Images(stream, Failed(p), dq, batch, table)
  {
    StepKeeps(c, p, WriteFail);
    LostBatch(c, p);
  }

  lemma Assoc<T>(a: seq<T>, b: seq<T>, c: seq<T>)
    ensures a + b + c == a + (b + c)
  {
  }

  /** The queue after one more tick, by the overflow policy. */
  function Enqueued<T>(c: Config, dq: seq<T>, tick: T): seq<T>
    requires c.Ok()
  {
    if |dq| < c.queueMax then dq + [tick] else if c.policy.DropOldest? then dq[1..] + [tick] else dq
  }

  class Writer<T(!new)> {
    const config: Config
    var dq: seq<T>
    var batch: seq<T>
    var attempts: nat
    var stopping: bool
    var rowsWritten: nat
    var droppedTicks: nat
    var dbErrors: nat
    /** The rows the database holds. */
    var table: seq<T>
    ghost var stream: seq<T>
    ghost var pipe: Pipe

    ghost predicate Valid()
      reads this
    {
      && config.Ok() && Holds(config, pipe) && Images(stream, pipe, dq, batch, table)
      && pipe.attempts == attempts && pipe.stopping == stopping
      && rowsWritten == |table| && droppedTicks == |pipe.shed| + |pipe.lost|
    }

    constructor (config: Config)
      requires config.Ok()
      ensures Valid() && this.config == config && stream == [] && pipe == Fresh
      ensures dbErrors == 0 && rowsWritten == 0 && droppedTicks == 0 && !stopping
      ensures dq == [] && batch == [] && table == []
    {
      this.config := config;
      dq, batch, table, stream, pipe := [], [], [], [], Fresh;
      attempts, stopping, rowsWritten, droppedTicks, dbErrors := 0, false, 0, 0, 0;
    }

    /** The counters account for every tick offered. */
    lemma Accounted()
      requires Valid()
      ensures rowsWritten + droppedTicks + |batch| + |dq| == |stream|
    {
      Counted(config, pipe);
    }

    /** Never blocks; sheds by policy when the queue is full. */
    method Enqueue(tick: T) returns (fullBatch: bool)
      requires Valid()
      modifies this`dq, this`droppedTicks, this`stream, this`pipe
      ensures Valid() && stream == old(stream) + [tick] && pipe == Offered(config, old(pipe))
      ensures dq == Enqueued(config, old(dq), tick)
      ensures droppedTicks == old(droppedTicks) + if |old(dq)| < config.queueMax then 0 else 1
      ensures fullBatch <==>
        |dq| >= config.batchSize && !(|old(dq)| >= config.queueMax && config.policy.DropNewest?)
    {
      OfferKeeps(config, pipe);
      OfferedDrops(config, pipe);
      ImagesOffered(config, pipe, stream, tick, dq, batch, table);
      stream, pipe := stream + [tick], Offered(config, pipe);
      fullBatch := false;
      if |dq| >= config.queueMax {
        droppedTicks := droppedTicks + 1;
        if config.policy.DropNewest? {
          return;
        }
        dq := dq[1..];
      }
      dq := dq + [tick];
      fullBatch := |dq| >= config.batchSize;
    }

    method TakeBatch()
      requires Valid() && batch == []
      modifies this`dq, this`batch, this`attempts, this`pipe
      ensures Valid() && pipe == Taken(config, old(pipe))
      ensures batch + dq == old(dq) && |batch| + |dq| == |old(dq)| && |batch| <= config.batchSize
      ensures |batch| == config.batchSize || dq == []
      ensures batch == [] <==> old(dq) == []
    {
      var n := if |dq| < config.batchSize then |dq| else config.batchSize;
      ghost var queued := dq;
      TakeKeeps(config, pipe);
      PickTail(stream, pipe.queue, n);
      for i := 0 to n
        invariant batch == queued[..i] && dq == queued[i..] && pipe == old(pipe)
      {
        batch, dq := batch + [dq[0]], dq[1..];
      }
      attempts, pipe := 0, Taken(config, pipe);
    }

    /** The database took the whole batch. */
    method RecordWritten()
      requires Valid() && batch != []
      modifies this`batch, this`attempts, this`table, this`rowsWritten, this`pipe
      ensures Valid() && pipe == Step(config, old(pipe), WriteOk)
      ensures batch == [] && attempts == 0 && table == old(table) + old(batch)
    {
      WrittenKeeps(config, pipe, stream, dq, batch, table);
      pipe := Step(config, pipe, WriteOk);
      table, rowsWritten := table + batch, rowsWritten + |batch|;
      batch, attempts := [], 0;
    }

    /** The database took nothing. Once a stop has been requested the third failure
        gives the batch up. */
    method RecordFailure()
      requires Valid() && batch != []
      modifies this`batch, this`attempts, this`droppedTicks, this`dbErrors, this`pipe
      ensures Valid() && pipe == Failed(old(pipe)) && dbErrors == old(dbErrors) + 1
      ensures if stopping && old(attempts) >= 2
        then batch == [] && attempts == 0 && droppedTicks == old(droppedTicks) + |old(batch)|
        else batch == old(batch) && attempts == old(attempts) + 1 && droppedTicks == old(droppedTicks)
    {
      FailedKeeps(config, pipe, stream, dq, batch, table);
      pipe := Failed(pipe);
      dbErrors, attempts := dbErrors + 1, attempts + 1;
      if stopping && attempts >= 3 {
        droppedTicks := droppedTicks + |batch|;
        batch, attempts := [], 0;
      }
    }

    /** A stop is requested, whatever the writer is doing. */
    method RequestStop()
      requires Valid()
      modifies this`stopping, this`pipe
      ensures Valid() && stopping && pipe == old(pipe).(stopping := true)
    {
      StopKeeps(config, pipe);
      stopping, pipe := true, pipe.(stopping := true);
    }

    /** One attempt; `stop` says whether a stop has been requested by the time it ends. */
    method AttemptWrite(ok: bool, stop: bool)
      requires Valid() && batch != []
      modifies this`batch, this`attempts, this`stopping, this`table, this`rowsWritten, this`droppedTicks,
        this`dbErrors, this`pipe
      ensures Valid() && stopping == (old(stopping) || stop)
      ensures var out := ok || (stopping && old(attempts) >= 2);
        && batch == (if out then [] else old(batch)) && attempts == (if out then 0 else old(attempts) + 1)
        && table == (if ok then old(table) + old(batch) else old(table))
        && droppedTicks == old(droppedTicks) + (if out && !ok then |old(batch)| else 0)
    {
      if stop {
        RequestStop();
      }
      if ok {
        RecordWritten();
      } else {
        RecordFailure();
      }
    }

    /** Try until the database takes the batch, or until a stop has been requested and
        three attempts have failed, counting those before this call. */
    method WriteWithRetry(w: Weather, first: nat) returns (n: nat)
      requires Valid() && batch != [] && (stopping ==> w.stopFrom <= first)
      modifies this`batch, this`attempts, this`stopping, this`table, this`rowsWritten, this`droppedTicks,
        this`dbErrors, this`pipe
      ensures Valid() && batch == [] && attempts == 0 && n == LastAttempt(w, first, old(attempts)) + 1
      ensures stopping ==> w.stopFrom <= n
      ensures old(stopping) ==> stopping
      ensures table == if w.answers(n - 1) then old(table) + old(batch) else old(table)
      ensures droppedTicks == old(droppedTicks) + if w.answers(n - 1) then 0 else |old(batch)|
    {
      n := first;
      ghost var last := LastAttempt(w, first, attempts);
      while batch != []
        invariant Valid() && (old(stopping) ==> stopping) && (stopping ==> w.stopFrom <= n)
        invariant batch != [] ==>
          batch == old(batch) && table == old(table) && droppedTicks == old(droppedTicks) &&
            LastAttempt(w, n, attempts) == last
        invariant batch == [] ==> attempts == 0 && n == last + 1
        invariant batch == [] ==> table == if w.answers(last) then old(table) + old(batch) else old(table)
        invariant batch == [] ==> droppedTicks == old(droppedTicks) + if w.answers(last) then 0 else |old(batch)|
        decreases |batch|, Left(w, n, attempts)
      {
        AttemptWrite(w.answers(n), n >= w.stopFrom);
        n := n + 1;
      }
    }

    /** Take and write batches until nothing waits. It always ends; and everything that
        was waiting is in the database if no three attempts in a row fail. */
    method DrainAndWrite(w: Weather, first: nat) returns (n: nat)
      requires Valid() && batch == [] && (stopping ==> w.stopFrom <= first)
      modifies this`dq, this`batch, this`attempts, this`stopping, this`table, this`rowsWritten, this`droppedTicks,
        this`dbErrors, this`pipe
      ensures Valid() && dq == [] && batch == [] && (old(stopping) ==> stopping)
      ensures NeverThreeFailures(w.answers) ==> table == old(table) + old(dq) && droppedTicks == old(droppedTicks)
    {
      n := first;
      ghost var everything := table + dq;
      TakeBatch();
      while batch != []
        invariant Valid() && attempts == 0 && (old(stopping) ==> stopping) && (stopping ==> w.stopFrom <= n)
        invariant NeverThreeFailures(w.answers) ==>
          table + (batch + dq) == everything && droppedTicks == old(droppedTicks)
        invariant batch == [] ==> dq == []
        decreases |batch| + |dq|
      {
        SomeAttemptTaken(w, n);
        Assoc(table, batch, dq);
        n := WriteWithRetry(w, n);
        TakeBatch();
      }
    }

    /** Stop the writer, wherever it is: it finishes the batch it holds, then flushes
        what is left. Afterwards nothing waits, and every tick ever offered is
        accounted for by the two counters. */
    method Stop(answers: nat -> bool)
      requires Valid()
      modifies this
      ensures Valid() && stopping && dq == [] && batch == [] && stream == old(stream)
      ensures rowsWritten + droppedTicks == |stream|
      ensures var held := old(batch) == [] || answers(LastAttempt(Weather(answers, 0), 0, old(attempts)));
        NeverThreeFailures(answers) && held ==> table == old(table) + old(batch) + old(dq)
    {
      RequestStop();
      var w, n := Weather(answers, 0), 0;
      if batch != [] {
        n := WriteWithRetry(w, 0);
      }
      n := DrainAndWrite(w, n);
      Accounted();
    }
  }

  /** What the writer meets: the database's answer to its n-th attempt, and the attempt
      by whose end a stop has been requested. */
  datatype Weather = Weather(answers: nat -> bool, stopFrom: nat)

  function Left(w: Weather, n: nat, attempts: nat): nat {
    (if n < w.stopFrom then w.stopFrom - n else 0) + if attempts < 3 then 3 - attempts else 0
  }

  predicate Ends(w: Weather, n: nat, attempts: nat) {
    w.answers(n) || (n >= w.stopFrom && attempts >= 2)
  }

  /** The attempt that settles a batch, `attempts` having failed before the n-th. */
  function LastAttempt(w: Weather, n: nat, attempts: nat): nat
    decreases Left(w, n, attempts)
  {
    if Ends(w, n, attempts) then n else LastAttempt(w, n + 1, attempts + 1)
  }

  lemma {:induction false} LastAttemptFails(w: Weather, n: nat, attempts: nat)
    requires !w.answers(LastAttempt(w, n, attempts))
    ensures var last := LastAttempt(w, n, attempts);
      n <= last && attempts + (last - n) >= 2 && forall k :: n <= k <= last ==> !w.answers(k)
    decreases Left(w, n, attempts)
  {
    if !Ends(w, n, attempts) {
      LastAttemptFails(w, n + 1, attempts + 1);
    }
  }

  /** A batch tried from the start is lost only to three failures in a row. */
  lemma SomeAttemptTaken(w: Weather, n: nat)
    ensures NeverThreeFailures(w.answers) ==> w.answers(LastAttempt(w, n, 0))
  {
    if !w.answers(LastAttempt(w, n, 0)) {
      LastAttemptFails(w, n, 0);
      assert !OneOfThree(w.answers, LastAttempt(w, n, 0) - 2);
    }
  }

  ghost predicate NeverThreeFailures(answers: nat -> bool) {
    forall n: nat :: OneOfThree(answers, n)
  }

  predicate OneOfThree(answers: nat -> bool, n: nat) {
    answers(n) || answers(n + 1) || answers(n + 2)
  }

  lemma StopKeeps(c: Config, p: Pipe)
    requires Holds(c, p)
    ensures Holds(c, p.(stopping := true))
  {
    assert Alive(p.(stopping := true)) == Alive(p);
  }

  lemma OfferedDrops(c: Config, p: Pipe)
    requires c.Ok() && Holds(c, p)
    ensures var q := Offered(c, p);
      q.lost == p.lost && |q.shed| == |p.shed| + if |p.queue| < c.queueMax then 0 else 1
  {
    if |p.queue| >= c.queueMax {
      assert p.queue[0] == Alive(p)[|p.written + p.batch|];
    }
  }

  lemma LostBatch(c: Config, p: Pipe)
    requires Holds(c, p)
    ensures |p.lost + Elements(p.batch)| == |p.lost| + |p.batch|
  {
    var w := |p.written|;
    forall m | 0 <= m < |p.batch| ensures p.batch[m] !in p.lost && Alive(p)[w + m] == p.batch[m] {
      assert Alive(p)[w + m] in Alive(p);
    }
    AscendingCount(p.batch);
    assert p.lost !! Elements(p.batch);
  }
}
