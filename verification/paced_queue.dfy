/** The paced batch queue of lib/utils/queue.js: requests are pushed onto a
    list; processing cuts the list into batches of `limit`, runs the batches
    one after another, joins each batch with `Promise.all` (which ends at the
    first rejection), swallows rejections, and waits `delay` seconds before
    every batch but the first. */
module PacedQueue {
  import opened Arith
  import opened Chunking
  import opened Trace

  const DefaultLimit: int := 2
  const DefaultDelay: nat := 1

  datatype Queue<J> = Queue(limit: int, delay: nat, items: seq<J>)

  /** The module's initial state: limit 2, delay 1 second, nothing queued. */
  function Init<J>(): (q: Queue<J>)
    ensures q.limit == DefaultLimit && q.delay == DefaultDelay && q.items == []
  {
    Queue(DefaultLimit, DefaultDelay, [])
  }

  /** Appends one request; the settings are untouched. */
  function Push<J>(q: Queue<J>, request: J): (q': Queue<J>)
    ensures q'.items == q.items + [request]
    ensures q'.limit == q.limit && q'.delay == q.delay
  {
    q.(items := q.items + [request])
  }

  /** The timer each later batch waits for, in milliseconds. */
  function PauseMillis<J>(q: Queue<J>): nat {
    q.delay * 1000
  }

  /** The events `process(callback)` produces when the callback's promise for
      job j fulfils iff ok(j). A batch's `Promise.all` ends at its first
      rejection, so the next batch's timer can start while callbacks of this
      one are still running. Processing leaves the queue as it was: the state
      is not part of the result. */
  function Process<J>(q: Queue<J>, ok: J -> bool): (t: seq<Event<J>>)
    ensures q.limit < 1 || |q.items| == 0 ==> t == [Done]
    ensures q.limit >= 1 ==> Dispatched(t) == q.items && multiset(Settled(t)) == multiset(q.items)
    ensures q.limit >= 1 && |q.items| > 0 ==> Delays(t) == |Chunk(q.items, q.limit)| - 1
    ensures Dones(t) == 1
    ensures DelaysAre(t, PauseMillis(q))
    ensures SettlesAsReported(t, ok)
  {
    var millis := PauseMillis(q);
    RunFacts(q.items, q.limit, ok, millis);
    ProcessTrace(Chunk(q.items, q.limit), ok, Paced(millis))
  }

  lemma RunFacts<J>(items: seq<J>, limit: int, ok: J -> bool, millis: nat)
    ensures var t := ProcessTrace(Chunk(items, limit), ok, Paced(millis));
            (limit < 1 || |items| == 0 ==> t == [Done]) &&
            (limit >= 1 ==> Dispatched(t) == items && multiset(Settled(t)) == multiset(items)) &&
            (limit >= 1 && |items| > 0 ==> Delays(t) == |Chunk(items, limit)| - 1) &&
            Dones(t) == 1 && DelaysAre(t, millis) && SettlesAsReported(t, ok)
  {
    var bs := Chunk(items, limit);
    var t := ProcessTrace(bs, ok, Paced(millis));
    assert DelaysAre(t, millis) && SettlesAsReported(t, ok) by {
      ProcessTraceReports(bs, ok, Paced(millis));
    }
    assert Dispatched(t) == Flatten(bs) && multiset(Settled(t)) == multiset(Flatten(bs)) && Dones(t) == 1 by {
      ProcessTraceProject(bs, ok, Paced(millis));
    }
    assert limit >= 1 && |items| > 0 ==> Delays(t) == |bs| - 1 by {
      ProcessTraceLaunches(bs, ok, Paced(millis));
    }
    assert limit < 1 || |items| == 0 ==> t == [Done] by {
      EmptyRun(bs, ok, Paced(millis));
    }
  }

  /** One timer for every batch but the first: ceil(n / limit) - 1 of them. */
  lemma TimerCount<J>(q: Queue<J>, ok: J -> bool)
    requires q.limit >= 1 && |q.items| > 0
    ensures Delays(Process(q, ok)) == (|q.items| + q.limit - 1) / q.limit - 1
  {
    var c := |Chunk(q.items, q.limit)|;
    assert Delays(Process(q, ok)) == c - 1;
    assert c == (|q.items| + q.limit - 1) / q.limit by {
      ChunkCount(q.items, q.limit);
    }
  }

  /** With no batches, `process` resolves at once and nothing else happens. */
  lemma EmptyRun<J>(bs: seq<seq<J>>, ok: J -> bool, pacing: Pacing)
    ensures |bs| == 0 ==> ProcessTrace(bs, ok, pacing) == [Done]
  {
    if |bs| == 0 {
      assert Settles([], ok) == [];
    }
  }

  /** The schedule the code evidently intends: every batch waits until all
      callbacks of the batch before it have settled, whatever their outcome. */
  function ProcessIntended<J>(q: Queue<J>, ok: J -> bool): (t: seq<Event<J>>)
    ensures q.limit >= 1 ==> Dispatched(t) == q.items && Settled(t) == q.items
    ensures q.limit >= 1 ==> Settled(BeforeDone(t)) == q.items && Bounded(t, q.limit)
    ensures Dones(t) == 1 && DelaysAre(t, PauseMillis(q)) && SettlesAsReported(t, ok)
  {
    var bs, pacing := Chunk(q.items, q.limit), Paced(PauseMillis(q));
    SettledTraceFacts(bs, ok, pacing);
    if q.limit >= 1 then
      SettledTraceBounded(bs, ok, pacing, q.limit);
      SettledTrace(bs, ok, pacing)
    else
      SettledTrace(bs, ok, pacing)
  }

  /** When every callback fulfils, `Promise.all` waits for whole batches and
      the run is the intended one: nothing settles after `process` resolves,
      and no more than limit callbacks ever run at once. */
  lemma FulfillingCallbacksMeetIntent<J>(q: Queue<J>, ok: J -> bool)
    requires Fulfils(q.items, ok)
    ensures Process(q, ok) == ProcessIntended(q, ok)
    ensures q.limit >= 1 ==> Bounded(Process(q, ok), q.limit) && Settled(BeforeDone(Process(q, ok))) == q.items
  {
    var bs := Chunk(q.items, q.limit);
    if q.limit >= 1 {
      ProcessTraceFulfilled(bs, ok, Paced(PauseMillis(q)));
    } else {
      assert bs == [];
      assert Settles([], ok) == [];
    }
  }

  /** A rejection by the first callback of a full first batch ends that
      batch's join at once: after the timer, the next batch (of two or more
      jobs) is dispatched while limit - 1 callbacks of the first still run. */
  lemma EarlyRejectionExceedsLimit<J>(q: Queue<J>, ok: J -> bool)
    requires q.limit >= 2 && |q.items| >= q.limit + 2 && !ok(q.items[0])
    ensures !Bounded(Process(q, ok), q.limit)
  {
    var bs := Chunk(q.items, q.limit);
    ChunkCount(q.items, q.limit);
    ChunkSlice(q.items, q.limit, 0);
    ChunkSlice(q.items, q.limit, 1);
    assert |bs[0]| == q.limit;
    assert |bs[1]| >= 2;
    assert bs[0][0] == q.items[0];
    FailFastOverlap(bs, ok, Paced(PauseMillis(q)));
    var t := Process(q, ok);
    var p := |bs[0]| + 1 + |Gap<J>(Paced(PauseMillis(q)))| + |bs[1]|;
    assert Load(t[..p]) > q.limit;
  }

  /** Four requests with limit 2, the first rejecting: three callbacks run at once. */
  lemma FourRequestsFirstRejects<J>(a: J, b: J, c: J, d: J, ok: J -> bool)
    requires !ok(a)
    ensures var t := Process(Queue(2, 1, [a, b, c, d]), ok);
            6 <= |t| && Load(t[..6]) == 3 &&
            t[..6] == [Dispatch(a), Dispatch(b), Settle(a, false), Delay(1000), Dispatch(c), Dispatch(d)]
  {
    var q := Queue(2, 1, [a, b, c, d]);
    assert Chunk(q.items, q.limit) == [[a, b], [c, d]] by {
      var xs := q.items;
      assert xs[..2] == [a, b] && xs[2..] == [c, d];
      assert Cut([c, d], 2) == [[c, d]];
      assert Cut(xs, 2) == [[a, b]] + Cut([c, d], 2);
    }
    TwoPairsFirstRejects(a, b, c, d, ok);
  }

  lemma TwoPairsFirstRejects<J>(a: J, b: J, c: J, d: J, ok: J -> bool)
    requires !ok(a)
    ensures var t := ProcessTrace([[a, b], [c, d]], ok, Paced(1000));
            6 <= |t| && Load(t[..6]) == 3 &&
            t[..6] == [Dispatch(a), Dispatch(b), Settle(a, false), Delay(1000), Dispatch(c), Dispatch(d)]
  {
    var bs := [[a, b], [c, d]];
    var d0, d1 := Dispatches(bs[0]), Dispatches(bs[1]);
    var s0, g := Settles(bs[0][..1], ok), Gap<J>(Paced(1000));
    assert d0 == [Dispatch(a), Dispatch(b)];
    assert d1 == [Dispatch(c), Dispatch(d)];
    assert s0 == [Settle(a, false)] by {
      assert bs[0][..1] == [a];
    }
    assert g == [Delay(1000)];
    OverlapShape(bs, ok, Paced(1000));
    FailFastOverlap(bs, ok, Paced(1000));
  }

  /** Batch i is dispatched only once the rounds before it have ended, and
      only batch 0 starts without a timer; by then the callback has been
      handed exactly the first i * limit requests. */
  lemma BatchGating<J>(q: Queue<J>, ok: J -> bool, i: nat)
    requires q.limit >= 1 && i < |Chunk(q.items, q.limit)|
    ensures var bs := Chunk(q.items, q.limit);
            var before := Launched(bs[..i], ok, Paced(PauseMillis(q)), true, []);
            var pause: seq<Event<J>> := if i == 0 then [] else [Delay(PauseMillis(q))];
            var n := |before| + |pause| + |bs[i]|;
            n <= |Process(q, ok)| && Process(q, ok)[..n] == before + pause + Dispatches(bs[i]) &&
            i * q.limit < |q.items| && Dispatched(before) == q.items[..i * q.limit]
  {
    var bs := Chunk(q.items, q.limit);
    var pacing := Paced(PauseMillis(q));
    assert Process(q, ok) == ProcessTrace(bs, ok, pacing);
    GatingPrefix(bs, ok, pacing, i);
    ChunkPrefix(q.items, q.limit, i);
    ChunkSlice(q.items, q.limit, i);
    LaunchedDispatches(bs[..i], ok, pacing, true, []);
  }

  /** When batch i is dispatched, everything the batches before it
      dispatched has settled except the callbacks of batch i - 1 that were
      still running when a rejection ended its join; those are exactly the
      callbacks in flight. */
  lemma BatchGatingRunning<J>(q: Queue<J>, ok: J -> bool, i: nat)
    requires q.limit >= 1 && i < |Chunk(q.items, q.limit)|
    ensures var bs := Chunk(q.items, q.limit);
            var before := Launched(bs[..i], ok, Paced(PauseMillis(q)), true, []);
            var running := if i == 0 then [] else bs[i - 1][JoinLength(bs[i - 1], ok)..];
            i * q.limit <= |q.items| &&
            multiset(Settled(before)) + multiset(running) == multiset(q.items[..i * q.limit]) &&
            Load(before) == |running|
  {
    var bs := Chunk(q.items, q.limit);
    FailFastGating(bs, ok, Paced(PauseMillis(q)), i);
    ChunkPrefix(q.items, q.limit, i);
  }

  /** With fulfilling callbacks nothing of the batches before i is still running. */
  lemma GatingFulfilled<J>(q: Queue<J>, ok: J -> bool, i: nat)
    requires q.limit >= 1 && i < |Chunk(q.items, q.limit)| && Fulfils(q.items, ok)
    ensures i * q.limit <= |q.items|
    ensures var bs := Chunk(q.items, q.limit);
            Owed(bs[..i], ok, []) == [] &&
            Settled(Launched(bs[..i], ok, Paced(PauseMillis(q)), true, [])) == q.items[..i * q.limit]
  {
    var bs := Chunk(q.items, q.limit);
    var pacing := Paced(PauseMillis(q));
    ChunkPrefix(q.items, q.limit, i);
    assert q.items == q.items[..i * q.limit] + q.items[i * q.limit..];
    FulfilsAppend(q.items[..i * q.limit], q.items[i * q.limit..], ok);
    LaunchedFulfilled(bs[..i], ok, pacing, true);
    BatchTraceProject(bs[..i], ok, pacing, true);
  }

  /** Rejections are swallowed: whatever the callbacks' outcomes, every
      request is dispatched, and the timers and dispatches come in the same
      order; outcomes only move the settlements. */
  lemma RejectionsDoNotStopBatches<J>(q: Queue<J>, ok1: J -> bool, ok2: J -> bool)
    ensures Launches(Process(q, ok1)) == Launches(Process(q, ok2))
    ensures q.limit >= 1 ==> Dispatched(Process(q, ok1)) == q.items && Dispatched(Process(q, ok2)) == q.items
  {
    LaunchesIgnoreOutcomes(Chunk(q.items, q.limit), ok1, ok2, Paced(PauseMillis(q)));
  }

  /** Pushing a request makes it the last job the callback receives. */
  lemma PushThenProcess<J>(q: Queue<J>, request: J, ok: J -> bool)
    requires q.limit >= 1
    ensures Dispatched(Process(Push(q, request), ok)) == Dispatched(Process(q, ok)) + [request]
  {
  }
}
