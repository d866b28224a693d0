/** The unpaced batch queue of lib/queue.js: the same push and the same
    `_.chunk` partition as the paced queue, but no timer between batches; each
    batch is meant to wait for the promises of the previous one.

    As written, batch i waits on `Promise.all(chunks[i - 1])`, and `chunks`
    only grows when a batch is dispatched. The `forEach` runs synchronously,
    so when batch i >= 2 sets up its wait only batch 0's promises are in
    `chunks`: `chunks[i - 1]` is undefined, `Promise.all(undefined)` rejects
    at once, and the swallowed rejection lets batch i run in the same turn.
    Its own entry in `wait` then joins `chunks[i]`, which is undefined too, so
    it resolves without waiting. Batch 1 really waits for batch 0, but by the
    time it is dispatched `chunks` holds batch 0, batches 2 onwards and then
    batch 1, so its entry in `wait` joins `chunks[1]`, which holds batch 2's
    promises. `process` therefore resolves once batch 0's and batch 2's joins
    have ended. `ProcessAsWritten` models that; `ProcessIntended` models the
    gating the code evidently intends. */
module GatedQueue {
  import opened Arith
  import opened Chunking
  import opened Trace
  import PacedQueue

  const DefaultLimit: int := 2

  datatype Queue<J> = Queue(limit: int, items: seq<J>)

  /** The module's initial state: limit 2, nothing queued. */
  function Init<J>(): (q: Queue<J>)
    ensures q.limit == DefaultLimit && q.items == []
  {
    Queue(DefaultLimit, [])
  }

  /** Appends one request; the limit is untouched. */
  function Push<J>(q: Queue<J>, request: J): (q': Queue<J>)
    ensures q'.items == q.items + [request]
    ensures q'.limit == q.limit
  {
    q.(items := q.items + [request])
  }

  // ------------------------------------------------------------ as written

  /** With three or more batches, up to the resolution of `process`: batch 0
      and every batch from 2 on are dispatched together, batch 1 once batch
      0's join has ended, and `process` resolves once batch 2's join has
      ended too. */
  function ScatteredHead<J>(bs: seq<seq<J>>, ok: J -> bool): seq<Event<J>>
    requires |bs| >= 3
  {
    var k0, k2 := JoinLength(bs[0], ok), JoinLength(bs[2], ok);
    Dispatches(bs[0]) + Dispatches(Flatten(bs[2..])) + Settles(bs[0][..k0], ok)
    + Dispatches(bs[1]) + Settles(bs[0][k0..], ok) + Settles(bs[2][..k2], ok)
  }

  /** What settles after `process` has resolved: the rest of batch 2, the
      batches after it, and batch 1, which was dispatched last. */
  function ScatteredTail<J>(bs: seq<seq<J>>, ok: J -> bool): seq<Event<J>>
    requires |bs| >= 3
  {
    Settles(bs[2][JoinLength(bs[2], ok)..] + Flatten(bs[3..]) + bs[1], ok)
  }

  /** The trace of the batches bs as lib/queue.js runs them. With one or two
      batches the wrong index goes unnoticed and the run is the paced
      queue's without timers. */
  function AsWrittenTrace<J>(bs: seq<seq<J>>, ok: J -> bool): seq<Event<J>> {
    if |bs| <= 2 then ProcessTrace(bs, ok, Unpaced)
    else ScatteredHead(bs, ok) + [Done] + ScatteredTail(bs, ok)
  }

  /** `process(callback)` as written, when the callback's promise for job j
      fulfils iff ok(j). Every request is dispatched and settles once, but
      with more than two batches not in queue order, and `process` resolves
      once; there are no timers. */
  function ProcessAsWritten<J>(q: Queue<J>, ok: J -> bool): (t: seq<Event<J>>)
    ensures q.limit < 1 || |q.items| == 0 ==> t == [Done]
    ensures q.limit >= 1 ==> multiset(Dispatched(t)) == multiset(q.items)
    ensures q.limit >= 1 ==> multiset(Settled(t)) == multiset(q.items)
    ensures q.limit >= 1 && |q.items| <= 2 * q.limit ==> Dispatched(t) == q.items
    ensures Dones(t) == 1 && Delays(t) == 0 && SettlesAsReported(t, ok)
  {
    AsWrittenFacts(q.items, q.limit, ok);
    AsWrittenTrace(Chunk(q.items, q.limit), ok)
  }

  lemma AsWrittenFacts<J>(items: seq<J>, limit: int, ok: J -> bool)
    ensures var t := AsWrittenTrace(Chunk(items, limit), ok);
            (limit < 1 || |items| == 0 ==> t == [Done]) &&
            (limit >= 1 ==> multiset(Dispatched(t)) == multiset(items) && multiset(Settled(t)) == multiset(items)) &&
            (limit >= 1 && |items| <= 2 * limit ==> Dispatched(t) == items) &&
            Dones(t) == 1 && Delays(t) == 0 && SettlesAsReported(t, ok)
  {
    var bs := Chunk(items, limit);
    var t := AsWrittenTrace(bs, ok);
    if |bs| <= 2 {
      assert Dispatched(t) == Flatten(bs) && multiset(Settled(t)) == multiset(Flatten(bs)) &&
             Dones(t) == 1 && Delays(t) == 0 by {
        ProcessTraceProject(bs, ok, Unpaced);
        ProcessTraceLaunches(bs, ok, Unpaced);
      }
      ProcessTraceReports(bs, ok, Unpaced);
      if |bs| == 0 {
        assert Settles([], ok) == [];
      }
    } else {
      ScatteredFacts(bs, ok);
      ScatteredIsPermutation(bs);
      if limit >= 1 {
        AtMostTwoBatches(items, limit);
      }
    }
  }

  /** The projections of a run of three or more batches. */
  lemma ScatteredFacts<J>(bs: seq<seq<J>>, ok: J -> bool)
    requires |bs| >= 3
    ensures var t := AsWrittenTrace(bs, ok);
            var order := bs[0] + Flatten(bs[2..]) + bs[1];
            Dispatched(t) == order && Settled(t) == order &&
            Dones(t) == 1 && Delays(t) == 0 && SettlesAsReported(t, ok) &&
            BeforeDone(t) == ScatteredHead(bs, ok)
  {
    var b0, b1, b2, later := bs[0], bs[1], bs[2], Flatten(bs[2..]);
    var k2 := JoinLength(b2, ok);
    var h := ScatteredHead(bs, ok);
    HeadProject(bs, ok);
    var hd := h + [Done];
    assert Dispatched(hd) == Dispatched(h) && Settled(hd) == Settled(h) && Delays(hd) == 0 && Dones(hd) == 1
        && SettlesAsReported(hd, ok) by {
      AppendDone(h);
      ReportsAppendDone(h, ok, 0);
    }
    var rest := b2[k2..] + Flatten(bs[3..]) + b1;
    var t := hd + Settles(rest, ok);
    assert AsWrittenTrace(bs, ok) == t;
    assert Dispatched(t) == Dispatched(h) && Settled(t) == Settled(h) + rest && Delays(t) == 0 && Dones(t) == 1
        && SettlesAsReported(t, ok) by {
      ThenSettles(hd, rest, ok);
      PiecesReport(rest, ok);
      ReportsAppend(hd, Settles(rest, ok), ok);
    }
    assert BeforeDone(t) == h by {
      BeforeDoneAt(h, Settles(rest, ok));
    }
    assert Settled(h) + rest == b0 + later + b1 by {
      assert later == b2 + Flatten(bs[3..]) by {
        assert bs[2..][0] == b2 && bs[2..][1..] == bs[3..];
      }
      Reassemble(b0, b2, k2, Flatten(bs[3..]), b1);
    }
  }

  /** Splitting the middle part of a + m + f + c at k and regrouping. */
  lemma Reassemble<T>(a: seq<T>, m: seq<T>, k: nat, f: seq<T>, c: seq<T>)
    requires k <= |m|
    ensures a + m[..k] + (m[k..] + f + c) == a + (m + f) + c
  {
    assert m[..k] + m[k..] == m;
    var l, r := a + m[..k] + (m[k..] + f + c), a + (m + f) + c;
    assert |l| == |r|;
    forall i | 0 <= i < |l|
      ensures l[i] == r[i]
    {
    }
  }

  /** Before `process` resolves: batch 0, the batches from 2 on and batch 1
      are dispatched, and batch 0 and the head of batch 2 have settled. */
  lemma HeadProject<J>(bs: seq<seq<J>>, ok: J -> bool)
    requires |bs| >= 3
    ensures var h := ScatteredHead(bs, ok);
            Dispatched(h) == bs[0] + Flatten(bs[2..]) + bs[1] &&
            Settled(h) == bs[0] + bs[2][..JoinLength(bs[2], ok)] &&
            Dones(h) == 0 && Delays(h) == 0 && SettlesAsReported(h, ok)
  {
    var b0, b1, b2, later := bs[0], bs[1], bs[2], Flatten(bs[2..]);
    var k0, k2 := JoinLength(b0, ok), JoinLength(b2, ok);
    var x1 := Dispatches(b0) + Dispatches(later);
    assert Dispatched(x1) == b0 + later && Settled(x1) == [] && Dones(x1) == 0 && Delays(x1) == 0
        && SettlesAsReported(x1, ok) by {
      DispatchesProject(b0);
      ThenDispatches(Dispatches(b0), later);
      PiecesReport(b0, ok);
      PiecesReport(later, ok);
      ReportsAppend(Dispatches(b0), Dispatches(later), ok);
    }
    var x2 := x1 + Settles(b0[..k0], ok);
    assert Dispatched(x2) == b0 + later && Settled(x2) == b0[..k0] && Dones(x2) == 0 && Delays(x2) == 0
        && SettlesAsReported(x2, ok) by {
      ThenSettles(x1, b0[..k0], ok);
      PiecesReport(b0[..k0], ok);
      ReportsAppend(x1, Settles(b0[..k0], ok), ok);
    }
    var x3 := x2 + Dispatches(b1);
    assert Dispatched(x3) == b0 + later + b1 && Settled(x3) == b0[..k0] && Dones(x3) == 0 && Delays(x3) == 0
        && SettlesAsReported(x3, ok) by {
      ThenDispatches(x2, b1);
      PiecesReport(b1, ok);
      ReportsAppend(x2, Dispatches(b1), ok);
    }
    var x4 := x3 + Settles(b0[k0..], ok);
    assert Dispatched(x4) == b0 + later + b1 && Settled(x4) == b0 && Dones(x4) == 0 && Delays(x4) == 0
        && SettlesAsReported(x4, ok) by {
      ThenSettles(x3, b0[k0..], ok);
      assert b0[..k0] + b0[k0..] == b0;
      PiecesReport(b0[k0..], ok);
      ReportsAppend(x3, Settles(b0[k0..], ok), ok);
    }
    var x5 := x4 + Settles(b2[..k2], ok);
    assert Dispatched(x5) == b0 + later + b1 && Settled(x5) == b0 + b2[..k2] && Dones(x5) == 0 && Delays(x5) == 0
        && SettlesAsReported(x5, ok) by {
      ThenSettles(x4, b2[..k2], ok);
      PiecesReport(b2[..k2], ok);
      ReportsAppend(x4, Settles(b2[..k2], ok), ok);
    }
    assert ScatteredHead(bs, ok) == x5;
  }

  /** With more than two batches the dispatch order is a permutation of the queue. */
  lemma ScatteredIsPermutation<J>(bs: seq<seq<J>>)
    requires |bs| >= 3
    ensures multiset(bs[0] + Flatten(bs[2..]) + bs[1]) == multiset(Flatten(bs))
  {
    assert Flatten(bs) == bs[0] + Flatten(bs[1..]);
    assert Flatten(bs[1..]) == bs[1] + Flatten(bs[2..]) by {
      assert bs[1..][0] == bs[1] && bs[1..][1..] == bs[2..];
    }
  }

  /** Two full batches hold all of at most 2 * limit requests. */
  lemma AtMostTwoBatches<J>(xs: seq<J>, limit: int)
    requires limit >= 1 && |Chunk(xs, limit)| >= 3
    ensures |xs| > 2 * limit
  {
    var bs := Chunk(xs, limit);
    assert Flatten(bs) == bs[0] + Flatten(bs[1..]);
    assert Flatten(bs[1..]) == bs[1] + Flatten(bs[2..]) by {
      assert bs[1..][0] == bs[1] && bs[1..][1..] == bs[2..];
    }
    assert Flatten(bs[2..]) == bs[2] + Flatten(bs[3..]) by {
      assert bs[2..][0] == bs[2] && bs[2..][1..] == bs[3..];
    }
    assert |bs[0]| == limit && |bs[1]| == limit && |bs[2]| >= 1;
  }

  /** With more than 2 * limit requests there are at least three batches, and
      the two first are full. */
  lemma ThreeBatches<J>(xs: seq<J>, limit: int)
    requires limit >= 1 && |xs| > 2 * limit
    ensures var bs := Chunk(xs, limit);
            |bs| >= 3 && |bs[0]| == limit && |bs[1]| == limit &&
            |Flatten(bs[2..])| == |xs| - 2 * limit
  {
    var bs := Chunk(xs, limit);
    var rest := xs[limit..];
    assert bs == [xs[..limit]] + Chunk(rest, limit);
    assert Chunk(rest, limit) == [rest[..limit]] + Chunk(rest[limit..], limit);
    assert |Chunk(rest[limit..], limit)| >= 1;
    assert bs[2..] == Chunk(rest[limit..], limit);
    assert |rest[limit..]| == |xs| - 2 * limit;
  }

  /** With at most 2 * limit requests the wrong index goes unnoticed: the run
      is the paced queue's schedule without its timers. */
  lemma AsWrittenAgreesUpToTwoBatches<J>(q: Queue<J>, ok: J -> bool)
    requires |q.items| <= 2 * q.limit
    ensures ProcessAsWritten(q, ok) == ProcessTrace(Chunk(q.items, q.limit), ok, Unpaced)
  {
    if q.limit >= 1 && |Chunk(q.items, q.limit)| >= 3 {
      AtMostTwoBatches(q.items, q.limit);
    }
  }

  /** Three or more batches, flattened: batch 0, batch 1, then the rest
      starting with batch 2. */
  lemma FlattenThree<J>(bs: seq<seq<J>>)
    requires |bs| >= 3
    ensures Flatten(bs) == bs[0] + bs[1] + Flatten(bs[2..])
    ensures Flatten(bs[2..]) == bs[2] + Flatten(bs[3..])
  {
    assert Flatten(bs[1..]) == bs[1] + Flatten(bs[2..]) by {
      assert bs[1..][0] == bs[1] && bs[1..][1..] == bs[2..];
    }
    assert bs[2..][0] == bs[2] && bs[2..][1..] == bs[3..];
  }

  /** A prefix of u stays a prefix when u is extended. */
  lemma PrefixExtends<T>(x: seq<T>, u: seq<T>, v: seq<T>)
    requires |x| <= |u| && u[..|x|] == x
    ensures |x| <= |u + v| && (u + v)[..|x|] == x
  {
    assert (u + v)[..|u|] == u;
  }

  /** With three or more batches, the trace begins with the dispatch of batch
      0 and of every batch from 2 on, then batch 0's join, then the dispatch
      of batch 1. */
  lemma ScatteredStart<J>(bs: seq<seq<J>>, ok: J -> bool)
    requires |bs| >= 3
    ensures var pre := Dispatches(bs[0]) + Dispatches(Flatten(bs[2..])) + Settles(bs[0][..JoinLength(bs[0], ok)], ok);
            var t := AsWrittenTrace(bs, ok);
            |pre| + |bs[1]| <= |t| && t[..|pre| + |bs[1]|] == pre + Dispatches(bs[1])
  {
    var b0, b1, b2, later := bs[0], bs[1], bs[2], Flatten(bs[2..]);
    var k0, k2 := JoinLength(b0, ok), JoinLength(b2, ok);
    var x3 := Dispatches(b0) + Dispatches(later) + Settles(b0[..k0], ok) + Dispatches(b1);
    var x4 := x3 + Settles(b0[k0..], ok);
    var h := x4 + Settles(b2[..k2], ok);
    var hd := h + [Done];
    assert x3[..|x3|] == x3;
    PrefixExtends(x3, x3, Settles(b0[k0..], ok));
    PrefixExtends(x3, x4, Settles(b2[..k2], ok));
    PrefixExtends(x3, h, [Done]);
    PrefixExtends(x3, hd, ScatteredTail(bs, ok));
    assert AsWrittenTrace(bs, ok) == hd + ScatteredTail(bs, ok);
  }

  /** Batch 1 waits for batch 0's join; with only two batches the run is the
      fail-fast schedule, otherwise batches 2 onwards are already running. */
  lemma WaitsForBatchZero<J>(bs: seq<seq<J>>, ok: J -> bool)
    requires |bs| >= 2
    ensures var pre := Dispatches(bs[0]) + Dispatches(Flatten(bs[2..])) + Settles(bs[0][..JoinLength(bs[0], ok)], ok);
            var t := AsWrittenTrace(bs, ok);
            |pre| + |bs[1]| <= |t| && t[..|pre| + |bs[1]|] == pre + Dispatches(bs[1]) &&
            Dispatched(pre) == bs[0] + Flatten(bs[2..]) && Settled(pre) == bs[0][..JoinLength(bs[0], ok)]
  {
    var b0, later := bs[0], Flatten(bs[2..]);
    var k0 := JoinLength(b0, ok);
    var x1 := Dispatches(b0) + Dispatches(later);
    var pre := x1 + Settles(b0[..k0], ok);
    assert Dispatched(pre) == b0 + later && Settled(pre) == b0[..k0] by {
      DispatchesProject(b0);
      ThenDispatches(Dispatches(b0), later);
      ThenSettles(x1, b0[..k0], ok);
    }
    if |bs| == 2 {
      assert later == [] by {
        assert bs[2..] == [];
      }
      assert pre == Launched(bs[..1], ok, Unpaced, true, []) + Gap<J>(Unpaced) by {
        assert bs[..1][0] == b0 && bs[..1][1..] == [];
        assert Dispatches<J>([]) == [] && Settles<J>([], ok) == [] && Gap<J>(Unpaced) == [];
        assert Launched(bs[..1], ok, Unpaced, true, []) == FailFastRound(b0, ok, Unpaced, true, []);
      }
      GatingPrefix(bs, ok, Unpaced, 1);
    } else {
      ScatteredStart(bs, ok);
    }
  }

  /** With three or more batches, batch 0 and the batches from 2 on are all
      outstanding before anything settles. */
  lemma ScatteredOverload<J>(bs: seq<seq<J>>, ok: J -> bool)
    requires |bs| >= 3
    ensures var head := Dispatches(bs[0]) + Dispatches(Flatten(bs[2..]));
            var t := AsWrittenTrace(bs, ok);
            |head| <= |t| && t[..|head|] == head && Load(head) == |bs[0]| + |Flatten(bs[2..])|
  {
    var b0, later := bs[0], Flatten(bs[2..]);
    var head := Dispatches(b0) + Dispatches(later);
    var k0 := JoinLength(b0, ok);
    var pre := head + Settles(b0[..k0], ok);
    var t := AsWrittenTrace(bs, ok);
    ScatteredStart(bs, ok);
    assert |head| <= |t| && t[..|head|] == head by {
      var x := pre + Dispatches(bs[1]);
      assert t[..|x|] == x;
      assert x[..|head|] == head;
    }
    assert Dispatched(head) == b0 + later && Settled(head) == [] by {
      DispatchesProject(b0);
      ThenDispatches(Dispatches(b0), later);
    }
  }

  /** A prefix with more than limit callbacks outstanding breaks the bound. */
  lemma Unbounded<J>(t: seq<Event<J>>, p: nat, limit: int)
    requires p <= |t| && Load(t[..p]) > limit
    ensures !Bounded(t, limit)
  {
  }

  /** As written, with more than 2 * limit requests, batch 0 and every batch
      from 2 on are in flight together: limit + (n - 2 * limit) = n - limit
      callbacks are outstanding, more than limit, whatever the outcomes. */
  lemma AsWrittenExceedsLimit<J>(q: Queue<J>, ok: J -> bool)
    requires q.limit >= 1 && |q.items| > 2 * q.limit
    ensures var t := ProcessAsWritten(q, ok);
            var p := |q.items| - q.limit;
            p <= |t| && Load(t[..p]) == |q.items| - q.limit && !Bounded(t, q.limit)
  {
    var bs := Chunk(q.items, q.limit);
    var p := |q.items| - q.limit;
    assert p == |bs[0]| + |Flatten(bs[2..])| by {
      ThreeBatches(q.items, q.limit);
    }
    ScatteredOverload(bs, ok);
    Unbounded(AsWrittenTrace(bs, ok), p, q.limit);
    assert ProcessAsWritten(q, ok) == AsWrittenTrace(bs, ok);
  }

  /** Five requests with limit 2 form the batches [a, b], [c, d] and [e]. */
  lemma FiveChunks<J>(a: J, b: J, c: J, d: J, e: J)
    ensures Chunk([a, b, c, d, e], 2) == [[a, b], [c, d], [e]]
  {
    var xs := [a, b, c, d, e];
    assert xs[..2] == [a, b] && xs[2..] == [c, d, e];
    assert [c, d, e][..2] == [c, d] && [c, d, e][2..] == [e];
    assert Cut([e], 2) == [[e]];
    assert Cut([c, d, e], 2) == [[c, d]] + Cut([e], 2);
    assert Cut(xs, 2) == [[a, b]] + Cut([c, d, e], 2);
  }

  /** Five requests with limit 2 whose callbacks all fulfil: `process`
      resolves once the first, second and fifth have settled, before the
      third and fourth. */
  lemma FiveRequestsResolveEarly<J>(a: J, b: J, c: J, d: J, e: J, ok: J -> bool)
    requires Fulfils([a, b, c, d, e], ok)
    ensures var t := ProcessAsWritten(Queue(DefaultLimit, [a, b, c, d, e]), ok);
            Settled(BeforeDone(t)) == [a, b, e] && Settled(t[|BeforeDone(t)|..]) == [c, d]
  {
    var bs := Chunk([a, b, c, d, e], 2);
    FiveChunks(a, b, c, d, e);
    var t := AsWrittenTrace(bs, ok);
    var k2 := JoinLength(bs[2], ok);
    ScatteredEarly(bs, ok);
    assert bs[0] + bs[2][..k2] == [a, b, e] && bs[2][k2..] + Flatten(bs[3..]) + bs[1] == [c, d] by {
      assert bs[2] == [e] && bs[3..] == [] && bs[1] == [c, d];
      assert k2 == 1 by {
        assert ok([a, b, c, d, e][4]);
      }
      assert [e][..1] == [e] && [e][1..] == [];
    }
    assert ProcessAsWritten(Queue(DefaultLimit, [a, b, c, d, e]), ok) == t;
  }

  /** Five requests with limit 2: the first, second and fifth callbacks are
      outstanding at once before anything settles. */
  lemma AsWrittenFiveRequests<J>(a: J, b: J, c: J, d: J, e: J, ok: J -> bool)
    ensures var t := ProcessAsWritten(Queue(2, [a, b, c, d, e]), ok);
            3 <= |t| && Load(t[..3]) == 3 && t[..3] == [Dispatch(a), Dispatch(b), Dispatch(e)]
  {
    var xs := [a, b, c, d, e];
    var bs := Chunk(xs, 2);
    FiveChunks(a, b, c, d, e);
    ScatteredOverload(bs, ok);
    assert Flatten(bs[2..]) == [e] by {
      assert bs[2..] == [[e]];
    }
    assert Dispatches([a, b]) + Dispatches([e]) == [Dispatch(a), Dispatch(b), Dispatch(e)];
    assert ProcessAsWritten(Queue(2, xs), ok) == AsWrittenTrace(bs, ok);
  }

  /** Batch 1 is dispatched only once batch 0's join has ended: up to its
      first dispatch, batch 0 and the batches from 2 on have been dispatched,
      and batch 0 has settled up to its first rejection, or entirely when
      its callbacks all fulfil. */
  lemma BatchOneWaitsForBatchZero<J>(q: Queue<J>, ok: J -> bool)
    requires q.limit >= 1 && |Chunk(q.items, q.limit)| >= 2
    ensures var bs := Chunk(q.items, q.limit);
            var pre := Dispatches(bs[0]) + Dispatches(Flatten(bs[2..])) + Settles(bs[0][..JoinLength(bs[0], ok)], ok);
            var t := ProcessAsWritten(q, ok);
            |pre| + |bs[1]| <= |t| && t[..|pre| + |bs[1]|] == pre + Dispatches(bs[1]) &&
            Dispatched(pre) == bs[0] + Flatten(bs[2..]) &&
            Settled(pre) == bs[0][..JoinLength(bs[0], ok)] &&
            (Fulfils(bs[0], ok) ==> Settled(pre) == bs[0])
  {
    var bs := Chunk(q.items, q.limit);
    WaitsForBatchZero(bs, ok);
    assert ProcessAsWritten(q, ok) == AsWrittenTrace(bs, ok);
  }

  /** With three or more batches, what settles before and after `process`
      resolves. */
  lemma ScatteredEarly<J>(bs: seq<seq<J>>, ok: J -> bool)
    requires |bs| >= 3
    ensures var t := AsWrittenTrace(bs, ok);
            var k2 := JoinLength(bs[2], ok);
            Settled(BeforeDone(t)) == bs[0] + bs[2][..k2] &&
            Settled(t[|BeforeDone(t)|..]) == bs[2][k2..] + Flatten(bs[3..]) + bs[1]
  {
    var h := ScatteredHead(bs, ok);
    var rest := bs[2][JoinLength(bs[2], ok)..] + Flatten(bs[3..]) + bs[1];
    var t := AsWrittenTrace(bs, ok);
    var d: seq<Event<J>> := [Done];
    ScatteredFacts(bs, ok);
    HeadProject(bs, ok);
    assert t[|h|..] == d + Settles(rest, ok) by {
      assert t == h + (d + Settles(rest, ok));
    }
    assert Settled(d + Settles(rest, ok)) == rest by {
      assert Settled(d) == [] by {
        assert d[1..] == [];
      }
      ThenSettles(d, rest, ok);
    }
  }

  /** As written, with three or more batches `process` resolves once batch
      0's and batch 2's joins have ended: batch 1 and the batches after 2
      settle only afterwards. When every callback fulfils, exactly batches 0
      and 2 have settled by then, fewer than all requests. */
  lemma AsWrittenResolvesEarly<J>(q: Queue<J>, ok: J -> bool)
    requires q.limit >= 1 && |Chunk(q.items, q.limit)| >= 3
    ensures var bs := Chunk(q.items, q.limit);
            var t := ProcessAsWritten(q, ok);
            var k2 := JoinLength(bs[2], ok);
            Settled(BeforeDone(t)) == bs[0] + bs[2][..k2] &&
            Settled(t[|BeforeDone(t)|..]) == bs[2][k2..] + Flatten(bs[3..]) + bs[1] &&
            (Fulfils(q.items, ok) ==> Settled(BeforeDone(t)) == bs[0] + bs[2] &&
                                       |Settled(BeforeDone(t))| < |q.items|)
  {
    var bs := Chunk(q.items, q.limit);
    ScatteredEarly(bs, ok);
    assert ProcessAsWritten(q, ok) == AsWrittenTrace(bs, ok);
    if Fulfils(q.items, ok) {
      FulfilsBatch(q.items, q.limit, ok, 2);
      FlattenThree(bs);
      assert |bs[1]| >= 1;
    }
  }

  /** Every callback of a queue whose callbacks all fulfil fulfils in each batch. */
  lemma FulfilsBatch<J>(xs: seq<J>, limit: int, ok: J -> bool, i: nat)
    requires limit >= 1 && i < |Chunk(xs, limit)| && Fulfils(xs, ok)
    ensures Fulfils(Chunk(xs, limit)[i], ok)
  {
    ChunkSlice(xs, limit, i);
    var lo, hi := i * limit, Min((i + 1) * limit, |xs|);
    assert xs == xs[..lo] + xs[lo..hi] + xs[hi..];
    FulfilsAppend(xs[..lo] + xs[lo..hi], xs[hi..], ok);
    FulfilsAppend(xs[..lo], xs[lo..hi], ok);
  }

  /** Rejections are swallowed: whatever the callbacks' outcomes, the same
      callbacks are called in the same order; outcomes only move the
      settlements and the resolution of `process`. */
  lemma RejectionsDoNotStopBatches<J>(q: Queue<J>, ok1: J -> bool, ok2: J -> bool)
    ensures Launches(ProcessAsWritten(q, ok1)) == Launches(ProcessAsWritten(q, ok2))
    ensures q.limit >= 1 ==> multiset(Dispatched(ProcessAsWritten(q, ok1))) == multiset(q.items)
  {
    var bs := Chunk(q.items, q.limit);
    if |bs| <= 2 {
      LaunchesIgnoreOutcomes(bs, ok1, ok2, Unpaced);
    } else {
      ScatteredLaunches(bs, ok1);
      ScatteredLaunches(bs, ok2);
    }
  }

  /** With more than two batches the callbacks are called for batch 0, the
      batches from 2 on, and batch 1, whatever the outcomes. */
  lemma ScatteredLaunches<J>(bs: seq<seq<J>>, ok: J -> bool)
    requires |bs| >= 3
    ensures Launches(AsWrittenTrace(bs, ok)) == Dispatches(bs[0] + Flatten(bs[2..]) + bs[1])
  {
    var b0, b1, b2, later := bs[0], bs[1], bs[2], Flatten(bs[2..]);
    var k0, k2 := JoinLength(b0, ok), JoinLength(b2, ok);
    var x1 := Dispatches(b0) + Dispatches(later);
    var x2 := x1 + Settles(b0[..k0], ok);
    var x3 := x2 + Dispatches(b1);
    var x4 := x3 + Settles(b0[k0..], ok);
    var h := x4 + Settles(b2[..k2], ok);
    var d: seq<Event<J>> := [Done];
    var w := Dispatches(b0) + Dispatches(later) + Dispatches(b1);
    assert Launches(x1) == Dispatches(b0) + Dispatches(later) by {
      LaunchesOfDispatches(b0);
      LaunchesOfDispatches(later);
      LaunchesAppend(Dispatches(b0), Dispatches(later));
    }
    assert Launches(x2) == Launches(x1) by {
      LaunchesOfSettles(b0[..k0], ok);
      LaunchesAppend(x1, Settles(b0[..k0], ok));
    }
    assert Launches(x3) == w by {
      LaunchesOfDispatches(b1);
      LaunchesAppend(x2, Dispatches(b1));
    }
    assert Launches(x4) == w by {
      LaunchesOfSettles(b0[k0..], ok);
      LaunchesAppend(x3, Settles(b0[k0..], ok));
    }
    assert Launches(h) == w by {
      LaunchesOfSettles(b2[..k2], ok);
      LaunchesAppend(x4, Settles(b2[..k2], ok));
    }
    assert Launches(h + d) == w by {
      assert Launches(d) == [] by {
        assert d[1..] == [];
      }
      LaunchesAppend(h, d);
    }
    assert AsWrittenTrace(bs, ok) == h + d + ScatteredTail(bs, ok);
    assert Launches(h + d + ScatteredTail(bs, ok)) == w by {
      LaunchesOfSettles(b2[k2..] + Flatten(bs[3..]) + b1, ok);
      LaunchesAppend(h + d, ScatteredTail(bs, ok));
    }
    assert w == Dispatches(b0 + later + b1) by {
      DispatchesAppend(b0, later);
      DispatchesAppend(b0 + later, b1);
    }
  }

  // -------------------------------------------------------------- intended

  /** The events of `process(callback)` with batch i waiting for every
      promise of batch i - 1 and `process` resolving once all have settled:
      the paced schedule without timers. */
  function ProcessIntended<J>(q: Queue<J>, ok: J -> bool): (t: seq<Event<J>>)
    ensures q.limit >= 1 ==> Dispatched(t) == q.items && Settled(t) == q.items
    ensures q.limit >= 1 ==> Settled(BeforeDone(t)) == q.items && Bounded(t, q.limit)
    ensures Dones(t) == 1 && Delays(t) == 0 && SettlesAsReported(t, ok)
  {
    var bs := Chunk(q.items, q.limit);
    SettledTraceFacts(bs, ok, Unpaced);
    if q.limit >= 1 then
      SettledTraceBounded(bs, ok, Unpaced, q.limit);
      SettledTrace(bs, ok, Unpaced)
    else
      SettledTrace(bs, ok, Unpaced)
  }

  /** With at most 2 * limit requests whose callbacks all fulfil, the code as
      written is the intended schedule. */
  lemma AsWrittenMeetsIntentUpToTwoBatches<J>(q: Queue<J>, ok: J -> bool)
    requires |q.items| <= 2 * q.limit && Fulfils(q.items, ok)
    ensures ProcessAsWritten(q, ok) == ProcessIntended(q, ok)
  {
    AsWrittenAgreesUpToTwoBatches(q, ok);
    var bs := Chunk(q.items, q.limit);
    if q.limit >= 1 {
      ProcessTraceFulfilled(bs, ok, Unpaced);
    } else {
      assert bs == [];
      assert Settles([], ok) == [];
    }
  }

  /** The two queues' intended schedules differ only in their timers:
      removing the Delay events from the paced queue's gives this queue's. */
  lemma PacedQueueAddsOnlyDelays<J>(limit: int, delay: nat, items: seq<J>, ok: J -> bool)
    ensures WithoutDelays(PacedQueue.ProcessIntended(PacedQueue.Queue(limit, delay, items), ok))
         == ProcessIntended(Queue(limit, items), ok)
  {
    SettledPacingOnlyAddsDelays(Chunk(items, limit), ok, delay * 1000);
  }
}
