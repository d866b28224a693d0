/** Sequential event traces of the batch scheduler.

    A callback invocation is a `Dispatch`, the settlement of the promise it
    returned is a `Settle` carrying whether it fulfilled, a timer between
    batches is a `Delay`, and the resolution of the promise `process` returns
    is `Done`. Both queue modules run their batches one after another; a batch
    dispatches all of its requests (`requests.map(callback)` calls them in
    list order) and is joined with `Promise.all`, which ends at the first
    rejection or once every promise has fulfilled. The join's own outcome is
    swallowed. Settlements are listed in the order the callbacks were
    dispatched; the settlements of a batch that arrive after its join has
    ended are listed once the next batch has been dispatched. */
module Trace {
  import opened Chunking

  datatype Event<J> = Dispatch(job: J) | Settle(job: J, ok: bool) | Delay(millis: nat) | Done

  /** Whether batches are separated by a timer (lib/utils/queue.js) or not (lib/queue.js). */
  datatype Pacing = Unpaced | Paced(millis: nat)

  // ------------------------------------------------------------ projections

  /** The jobs handed to the callback, in call order. */
  function Dispatched<J>(t: seq<Event<J>>): seq<J> {
    if |t| == 0 then []
    else (if t[0].Dispatch? then [t[0].job] else []) + Dispatched(t[1..])
  }

  /** The jobs whose promise settled, in settlement order. */
  function Settled<J>(t: seq<Event<J>>): seq<J> {
    if |t| == 0 then []
    else (if t[0].Settle? then [t[0].job] else []) + Settled(t[1..])
  }

  /** The number of Delay events. */
  function Delays<J>(t: seq<Event<J>>): nat {
    if |t| == 0 then 0
    else (if t[0].Delay? then 1 else 0) + Delays(t[1..])
  }

  /** The number of Done events. */
  function Dones<J>(t: seq<Event<J>>): nat {
    if |t| == 0 then 0
    else (if t[0].Done? then 1 else 0) + Dones(t[1..])
  }

  /** Callbacks dispatched but not yet settled. */
  function Load<J>(t: seq<Event<J>>): int {
    |Dispatched(t)| - |Settled(t)|
  }

  /** At no point are more than limit callbacks outstanding. */
  predicate Bounded<J>(t: seq<Event<J>>, limit: int) {
    forall p :: 0 <= p <= |t| ==> Load(t[..p]) <= limit
  }

  /** Every settlement carries the outcome the callback produced for its job. */
  predicate SettlesAsReported<J>(t: seq<Event<J>>, ok: J -> bool) {
    forall i :: 0 <= i < |t| && t[i].Settle? ==> t[i].ok == ok(t[i].job)
  }

  /** Every Delay event waits the given number of milliseconds. */
  predicate DelaysAre<J>(t: seq<Event<J>>, millis: nat) {
    forall i :: 0 <= i < |t| && t[i].Delay? ==> t[i].millis == millis
  }

  lemma {:induction false} DispatchedAppend<J>(a: seq<Event<J>>, b: seq<Event<J>>)
    ensures Dispatched(a + b) == Dispatched(a) + Dispatched(b)
  {
    if |a| == 0 {
      assert a + b == b;
    } else {
      assert (a + b)[0] == a[0];
      assert (a + b)[1..] == a[1..] + b;
      DispatchedAppend(a[1..], b);
    }
  }

  lemma {:induction false} SettledAppend<J>(a: seq<Event<J>>, b: seq<Event<J>>)
    ensures Settled(a + b) == Settled(a) + Settled(b)
  {
    if |a| == 0 {
      assert a + b == b;
    } else {
      assert (a + b)[0] == a[0];
      assert (a + b)[1..] == a[1..] + b;
      SettledAppend(a[1..], b);
    }
  }

  lemma {:induction false} DelaysAppend<J>(a: seq<Event<J>>, b: seq<Event<J>>)
    ensures Delays(a + b) == Delays(a) + Delays(b)
  {
    if |a| == 0 {
      assert a + b == b;
    } else {
      assert (a + b)[0] == a[0];
      assert (a + b)[1..] == a[1..] + b;
      DelaysAppend(a[1..], b);
    }
  }

  lemma {:induction false} DonesAppend<J>(a: seq<Event<J>>, b: seq<Event<J>>)
    ensures Dones(a + b) == Dones(a) + Dones(b)
  {
    if |a| == 0 {
      assert a + b == b;
    } else {
      assert (a + b)[0] == a[0];
      assert (a + b)[1..] == a[1..] + b;
      DonesAppend(a[1..], b);
    }
  }

  /** Every projection of a concatenation is the concatenation of the projections. */
  lemma ProjectAppend<J>(a: seq<Event<J>>, b: seq<Event<J>>)
    ensures Dispatched(a + b) == Dispatched(a) + Dispatched(b)
    ensures Settled(a + b) == Settled(a) + Settled(b)
    ensures Delays(a + b) == Delays(a) + Delays(b)
    ensures Dones(a + b) == Dones(a) + Dones(b)
    ensures Load(a + b) == Load(a) + Load(b)
  {
    DispatchedAppend(a, b);
    SettledAppend(a, b);
    DelaysAppend(a, b);
    DonesAppend(a, b);
  }

  /** The events that happened before the promise `process` returned resolved. */
  function BeforeDone<J>(t: seq<Event<J>>): (u: seq<Event<J>>)
    ensures |u| <= |t| && u == t[..|u|]
    ensures Dones(u) == 0
  {
    if |t| == 0 || t[0].Done? then [] else [t[0]] + BeforeDone(t[1..])
  }

  lemma {:induction false} BeforeDoneAt<J>(a: seq<Event<J>>, b: seq<Event<J>>)
    requires Dones(a) == 0
    ensures BeforeDone(a + [Done] + b) == a
  {
    if |a| == 0 {
      assert a + [Done] + b == [Done] + b;
    } else {
      assert (a + [Done] + b)[0] == a[0];
      assert (a + [Done] + b)[1..] == a[1..] + [Done] + b;
      BeforeDoneAt(a[1..], b);
    }
  }

  /** What settled before `process` resolved settled in the whole run too, in the same order. */
  lemma SettledBeforeDone<J>(t: seq<Event<J>>)
    ensures Settled(t) == Settled(BeforeDone(t)) + Settled(t[|BeforeDone(t)|..])
  {
    var u := BeforeDone(t);
    assert t == u + t[|u|..];
    ProjectAppend(u, t[|u|..]);
  }

  // --------------------------------------------------------------- batches

  /** `requests.map((request) => callback(request))`. */
  function Dispatches<J>(b: seq<J>): (t: seq<Event<J>>)
    ensures |t| == |b|
  {
    seq(|b|, i requires 0 <= i < |b| => Dispatch(b[i]))
  }

  /** The settlements of a batch's promises with their outcomes. */
  function Settles<J>(b: seq<J>, ok: J -> bool): (t: seq<Event<J>>)
    ensures |t| == |b|
  {
    seq(|b|, i requires 0 <= i < |b| => Settle(b[i], ok(b[i])))
  }

  lemma DispatchesAppend<J>(a: seq<J>, b: seq<J>)
    ensures Dispatches(a + b) == Dispatches(a) + Dispatches(b)
  {
    assert forall i :: 0 <= i < |a| + |b| ==> Dispatches(a + b)[i] == (Dispatches(a) + Dispatches(b))[i];
  }

  lemma {:induction false} DispatchesProject<J>(b: seq<J>)
    ensures Dispatched(Dispatches(b)) == b
    ensures Settled(Dispatches(b)) == [] && Delays(Dispatches(b)) == 0 && Dones(Dispatches(b)) == 0
  {
    if |b| > 0 {
      assert Dispatches(b)[1..] == Dispatches(b[1..]);
      DispatchesProject(b[1..]);
    }
  }

  lemma {:induction false} SettlesProject<J>(b: seq<J>, ok: J -> bool)
    ensures Settled(Settles(b, ok)) == b
    ensures Dispatched(Settles(b, ok)) == [] && Delays(Settles(b, ok)) == 0 && Dones(Settles(b, ok)) == 0
  {
    if |b| > 0 {
      assert Settles(b, ok)[1..] == Settles(b[1..], ok);
      SettlesProject(b[1..], ok);
    }
  }

  /** Dispatching b after x adds b to the dispatched jobs and nothing else. */
  lemma ThenDispatches<J>(x: seq<Event<J>>, b: seq<J>)
    ensures var y := x + Dispatches(b);
            Dispatched(y) == Dispatched(x) + b && Settled(y) == Settled(x) &&
            Dones(y) == Dones(x) && Delays(y) == Delays(x)
  {
    DispatchesProject(b);
    ProjectAppend(x, Dispatches(b));
  }

  /** Settling b after x adds b to the settled jobs and nothing else. */
  lemma ThenSettles<J>(x: seq<Event<J>>, b: seq<J>, ok: J -> bool)
    ensures var y := x + Settles(b, ok);
            Dispatched(y) == Dispatched(x) && Settled(y) == Settled(x) + b &&
            Dones(y) == Dones(x) && Delays(y) == Delays(x)
  {
    SettlesProject(b, ok);
    ProjectAppend(x, Settles(b, ok));
  }

  /** A trace made of two parts that report their outcomes reports them too. */
  lemma ReportsAppend<J>(a: seq<Event<J>>, b: seq<Event<J>>, ok: J -> bool)
    requires SettlesAsReported(a, ok) && SettlesAsReported(b, ok)
    ensures SettlesAsReported(a + b, ok)
  {
    var t := a + b;
    forall i | 0 <= i < |t| && t[i].Settle?
      ensures t[i].ok == ok(t[i].job)
    {
      if i < |a| {
        assert t[i] == a[i];
      } else {
        assert t[i] == b[i - |a|];
      }
    }
  }

  lemma PiecesReport<J>(b: seq<J>, ok: J -> bool)
    ensures SettlesAsReported(Dispatches(b), ok) && SettlesAsReported(Settles(b, ok), ok)
  {
  }

  /** What precedes a batch that is not the first: nothing, or one timer. */
  function Gap<J>(pacing: Pacing): seq<Event<J>> {
    match pacing
    case Unpaced => []
    case Paced(ms) => [Delay(ms)]
  }

  lemma GapProject<J>(pacing: Pacing, first: bool)
    ensures var g: seq<Event<J>> := if first then [] else Gap(pacing);
            Dispatched(g) == [] && Settled(g) == [] && Dones(g) == 0 &&
            Delays(g) == (if first || pacing.Unpaced? then 0 else 1) &&
            forall p :: 0 <= p <= |g| ==> Load(g[..p]) == 0
  {
    var g: seq<Event<J>> := if first then [] else Gap(pacing);
    if |g| == 1 {
      assert g[1..] == [];
      assert g[..0] == [];
      assert g[..1] == g;
    }
  }

  /** One batch: the pause before it (unless it is the first), its dispatches, its join. */
  function Round<J>(b: seq<J>, ok: J -> bool, pacing: Pacing, first: bool): seq<Event<J>> {
    (if first then [] else Gap(pacing)) + Dispatches(b) + Settles(b, ok)
  }

  /** Batches processed one after another, each started only after every
      callback of the previous one has settled: the join the scheduler is
      meant to have (what `Promise.allSettled` would give). */
  function BatchTrace<J>(bs: seq<seq<J>>, ok: J -> bool, pacing: Pacing, first: bool): seq<Event<J>>
    decreases |bs|
  {
    if |bs| == 0 then []
    else Round(bs[0], ok, pacing, first) + BatchTrace(bs[1..], ok, pacing, false)
  }

  lemma RoundProject<J>(b: seq<J>, ok: J -> bool, pacing: Pacing, first: bool)
    ensures var r := Round(b, ok, pacing, first);
            Dispatched(r) == b && Settled(r) == b && Dones(r) == 0 &&
            Delays(r) == (if first || pacing.Unpaced? then 0 else 1)
  {
    var g: seq<Event<J>> := if first then [] else Gap(pacing);
    GapProject<J>(pacing, first);
    ProjectAppend(g, Dispatches(b));
    ProjectAppend(g + Dispatches(b), Settles(b, ok));
    DispatchesProject(b);
    SettlesProject(b, ok);
  }

  /** Every batch is dispatched exactly once and settled exactly once, in
      order; with pacing there is one timer before every batch but the first. */
  lemma {:induction false} BatchTraceProject<J>(bs: seq<seq<J>>, ok: J -> bool, pacing: Pacing, first: bool)
    ensures var t := BatchTrace(bs, ok, pacing, first);
            Dispatched(t) == Flatten(bs) && Settled(t) == Flatten(bs) && Dones(t) == 0 &&
            Delays(t) == (if pacing.Unpaced? || |bs| == 0 then 0
                          else if first then |bs| - 1 else |bs|)
    decreases |bs|
  {
    if |bs| > 0 {
      RoundProject(bs[0], ok, pacing, first);
      BatchTraceProject(bs[1..], ok, pacing, false);
      ProjectAppend(Round(bs[0], ok, pacing, first), BatchTrace(bs[1..], ok, pacing, false));
    }
  }

  // ------------------------------------------------------------ concurrency

  lemma PrefixOfAppend<J>(a: seq<Event<J>>, b: seq<Event<J>>, p: nat)
    requires |a| <= p <= |a| + |b|
    ensures Load((a + b)[..p]) == Load(a) + Load(b[..p - |a|])
  {
    assert (a + b)[..p] == a + b[..p - |a|];
    ProjectAppend(a, b[..p - |a|]);
  }

  /** Appending b keeps the bound if the load a leaves behind plus any prefix load of b stays within it. */
  lemma BoundedAppend<J>(a: seq<Event<J>>, b: seq<Event<J>>, limit: int)
    requires Bounded(a, limit)
    requires forall q :: 0 <= q <= |b| ==> Load(a) + Load(b[..q]) <= limit
    ensures Bounded(a + b, limit)
  {
    forall p | 0 <= p <= |a + b|
      ensures Load((a + b)[..p]) <= limit
    {
      if p <= |a| {
        assert (a + b)[..p] == a[..p];
      } else {
        PrefixOfAppend(a, b, p);
      }
    }
  }

  lemma DispatchesPrefixLoad<J>(b: seq<J>, k: nat)
    requires k <= |b|
    ensures Load(Dispatches(b)[..k]) == k
  {
    assert Dispatches(b)[..k] == Dispatches(b[..k]);
    DispatchesProject(b[..k]);
  }

  lemma SettlesPrefixLoad<J>(b: seq<J>, ok: J -> bool, k: nat)
    requires k <= |b|
    ensures Load(Settles(b, ok)[..k]) == -(k as int)
  {
    assert Settles(b, ok)[..k] == Settles(b[..k], ok);
    SettlesProject(b[..k], ok);
  }

  /** A batch of at most limit jobs never has more than limit outstanding. */
  lemma RoundBounded<J>(b: seq<J>, ok: J -> bool, pacing: Pacing, first: bool, limit: int)
    requires |b| <= limit
    ensures Bounded(Round(b, ok, pacing, first), limit)
    ensures Load(Round(b, ok, pacing, first)) == 0
  {
    var g: seq<Event<J>> := if first then [] else Gap(pacing);
    GapProject<J>(pacing, first);
    forall q | 0 <= q <= |b|
      ensures Load(g) + Load(Dispatches(b)[..q]) <= limit
    {
      DispatchesPrefixLoad(b, q);
    }
    BoundedAppend(g, Dispatches(b), limit);
    ProjectAppend(g, Dispatches(b));
    DispatchesProject(b);
    forall q | 0 <= q <= |b|
      ensures Load(g + Dispatches(b)) + Load(Settles(b, ok)[..q]) <= limit
    {
      SettlesPrefixLoad(b, ok, q);
    }
    BoundedAppend(g + Dispatches(b), Settles(b, ok), limit);
    RoundProject(b, ok, pacing, first);
  }

  /** When no batch exceeds limit, neither does the number of outstanding callbacks. */
  lemma {:induction false} BatchTraceBounded<J>(bs: seq<seq<J>>, ok: J -> bool, pacing: Pacing, first: bool, limit: int)
    requires limit >= 0
    requires forall i :: 0 <= i < |bs| ==> |bs[i]| <= limit
    ensures Bounded(BatchTrace(bs, ok, pacing, first), limit)
    decreases |bs|
  {
    var t := BatchTrace(bs, ok, pacing, first);
    if |bs| == 0 {
      assert forall p :: 0 <= p <= |t| ==> t[..p] == [];
    } else {
      var r := Round(bs[0], ok, pacing, first);
      var rest := BatchTrace(bs[1..], ok, pacing, false);
      RoundBounded(bs[0], ok, pacing, first, limit);
      BatchTraceBounded(bs[1..], ok, pacing, false, limit);
      BoundedAppend(r, rest, limit);
    }
  }

  // --------------------------------------------------------------- outcomes

  lemma {:induction false} BatchTraceReports<J>(bs: seq<seq<J>>, ok: J -> bool, pacing: Pacing, first: bool)
    ensures SettlesAsReported(BatchTrace(bs, ok, pacing, first), ok)
    ensures pacing.Paced? ==> DelaysAre(BatchTrace(bs, ok, pacing, first), pacing.millis)
    decreases |bs|
  {
    if |bs| > 0 {
      BatchTraceReports(bs[1..], ok, pacing, false);
    }
  }

  /** The trace with its timers removed. */
  function WithoutDelays<J>(t: seq<Event<J>>): seq<Event<J>> {
    if |t| == 0 then []
    else (if t[0].Delay? then [] else [t[0]]) + WithoutDelays(t[1..])
  }

  lemma {:induction false} WithoutDelaysAppend<J>(a: seq<Event<J>>, b: seq<Event<J>>)
    ensures WithoutDelays(a + b) == WithoutDelays(a) + WithoutDelays(b)
  {
    if |a| == 0 {
      assert a + b == b;
    } else {
      assert (a + b)[0] == a[0];
      assert (a + b)[1..] == a[1..] + b;
      WithoutDelaysAppend(a[1..], b);
    }
  }

  lemma {:induction false} WithoutDelaysKeeps<J>(t: seq<Event<J>>)
    requires Delays(t) == 0
    ensures WithoutDelays(t) == t
  {
    if |t| > 0 {
      WithoutDelaysKeeps(t[1..]);
    }
  }

  /** A paced schedule is the unpaced schedule with a timer before every batch but the first. */
  lemma {:induction false} PacingOnlyAddsDelays<J>(bs: seq<seq<J>>, ok: J -> bool, millis: nat, first: bool)
    ensures WithoutDelays(BatchTrace(bs, ok, Paced(millis), first)) == BatchTrace(bs, ok, Unpaced, first)
    decreases |bs|
  {
    if |bs| > 0 {
      var body := Dispatches(bs[0]) + Settles(bs[0], ok);
      var g: seq<Event<J>> := if first then [] else [Delay(millis)];
      assert Round(bs[0], ok, Paced(millis), first) == g + body;
      assert Round(bs[0], ok, Unpaced, first) == body;
      DispatchesProject(bs[0]);
      SettlesProject(bs[0], ok);
      ProjectAppend(Dispatches(bs[0]), Settles(bs[0], ok));
      WithoutDelaysKeeps(body);
      WithoutDelaysAppend(g, body);
      WithoutDelaysAppend(g + body, BatchTrace(bs[1..], ok, Paced(millis), false));
      PacingOnlyAddsDelays(bs[1..], ok, millis, false);
    }
  }

  /** The same for a whole run: the settle-all trace with pacing, minus its
      timers, is the trace without pacing. */
  lemma SettledPacingOnlyAddsDelays<J>(bs: seq<seq<J>>, ok: J -> bool, millis: nat)
    ensures WithoutDelays(SettledTrace(bs, ok, Paced(millis))) == SettledTrace(bs, ok, Unpaced)
  {
    PacingOnlyAddsDelays(bs, ok, millis, true);
    WithoutDelaysAppend(BatchTrace(bs, ok, Paced(millis), true), [Done]);
  }

  // ----------------------------------------------------------- whole runs

  /** Every listed callback fulfils. */
  predicate Fulfils<J>(xs: seq<J>, ok: J -> bool) {
    forall i :: 0 <= i < |xs| ==> ok(xs[i])
  }

  lemma FulfilsAppend<J>(a: seq<J>, b: seq<J>, ok: J -> bool)
    ensures Fulfils(a + b, ok) <==> Fulfils(a, ok) && Fulfils(b, ok)
  {
    if Fulfils(a + b, ok) {
      forall i | 0 <= i < |a|
        ensures ok(a[i])
      {
        assert (a + b)[i] == a[i];
      }
      forall i | 0 <= i < |b|
        ensures ok(b[i])
      {
        assert (a + b)[|a| + i] == b[i];
      }
    }
  }

  /** A run with settle-all joins: the batches, then the resolution of the
      promise `process` returns. */
  function SettledTrace<J>(bs: seq<seq<J>>, ok: J -> bool, pacing: Pacing): seq<Event<J>> {
    BatchTrace(bs, ok, pacing, true) + [Done]
  }

  /** With settle-all joins every job is dispatched and settled once, in
      order, before `process` resolves. */
  lemma SettledTraceFacts<J>(bs: seq<seq<J>>, ok: J -> bool, pacing: Pacing)
    ensures var t := SettledTrace(bs, ok, pacing);
            Dispatched(t) == Flatten(bs) && Settled(t) == Flatten(bs) &&
            Settled(BeforeDone(t)) == Flatten(bs) && Dones(t) == 1 &&
            Delays(t) == (if pacing.Unpaced? || |bs| == 0 then 0 else |bs| - 1) &&
            SettlesAsReported(t, ok) &&
            (pacing.Paced? ==> DelaysAre(t, pacing.millis))
  {
    var b := BatchTrace(bs, ok, pacing, true);
    BatchTraceProject(bs, ok, pacing, true);
    AppendDone(b);
    BatchTraceReports(bs, ok, pacing, true);
    ReportsAppendDone(b, ok, if pacing.Paced? then pacing.millis else 0);
  }

  /** Resolving `process` after a run without a resolution changes none of
      its projections, and the run is all that happened before it. */
  lemma AppendDone<J>(b: seq<Event<J>>)
    requires Dones(b) == 0
    ensures var t := b + [Done];
            Dispatched(t) == Dispatched(b) && Settled(t) == Settled(b) && Delays(t) == Delays(b) &&
            Dones(t) == 1 && BeforeDone(t) == b
  {
    var d: seq<Event<J>> := [Done];
    assert d[1..] == [];
    ProjectAppend(b, d);
    assert b + d + [] == b + d;
    BeforeDoneAt(b, []);
  }

  /** Resolving `process` settles nothing and starts no timer. */
  lemma ReportsAppendDone<J>(b: seq<Event<J>>, ok: J -> bool, millis: nat)
    ensures SettlesAsReported(b, ok) ==> SettlesAsReported(b + [Done], ok)
    ensures DelaysAre(b, millis) ==> DelaysAre(b + [Done], millis)
  {
    var t := b + [Done];
    assert forall i :: 0 <= i < |b| ==> t[i] == b[i];
    assert t[|b|] == Done;
  }

  /** With settle-all joins no batch of at most limit jobs lets more than
      limit callbacks run at once. */
  lemma SettledTraceBounded<J>(bs: seq<seq<J>>, ok: J -> bool, pacing: Pacing, limit: int)
    requires limit >= 0 && forall i :: 0 <= i < |bs| ==> |bs[i]| <= limit
    ensures Bounded(SettledTrace(bs, ok, pacing), limit)
  {
    var b := BatchTrace(bs, ok, pacing, true);
    var d: seq<Event<J>> := [Done];
    BatchTraceBounded(bs, ok, pacing, true, limit);
    BatchTraceProject(bs, ok, pacing, true);
    assert Load(b) == 0;
    assert d[..0] == [] && d[..1] == d;
    BoundedAppend(b, d, limit);
  }

  /** How many of a batch's settlements `Promise.all` consumes when they
      arrive in dispatch order: all of them, or those up to and including the
      first rejection. */
  function JoinLength<J>(b: seq<J>, ok: J -> bool): (k: nat)
    ensures k <= |b| && (|b| > 0 ==> k > 0)
    ensures forall i :: 0 <= i < k - 1 ==> ok(b[i])
    ensures k < |b| ==> !ok(b[k - 1])
    ensures Fulfils(b, ok) ==> k == |b|
  {
    if |b| == 0 then 0
    else if !ok(b[0]) then 1
    else 1 + JoinLength(b[1..], ok)
  }

  /** One batch under `Promise.all`: the pause before it (unless it is the
      first), its dispatches, the settlements the previous batch still owed,
      and its own settlements up to the end of its join. */
  function FailFastRound<J>(b: seq<J>, ok: J -> bool, pacing: Pacing, first: bool, late: seq<J>): seq<Event<J>> {
    (if first then [] else Gap(pacing)) + Dispatches(b) + Settles(late, ok) + Settles(b[..JoinLength(b, ok)], ok)
  }

  /** Batches bs under `Promise.all`, each started when the previous one's
      join has ended; late are the settlements the batch before them owes. */
  function Launched<J>(bs: seq<seq<J>>, ok: J -> bool, pacing: Pacing, first: bool, late: seq<J>): seq<Event<J>>
    decreases |bs|
  {
    if |bs| == 0 then []
    else
      var k := JoinLength(bs[0], ok);
      FailFastRound(bs[0], ok, pacing, first, late) + Launched(bs[1..], ok, pacing, false, bs[0][k..])
  }

  /** The settlements still owed once the joins of bs have ended. */
  function Owed<J>(bs: seq<seq<J>>, ok: J -> bool, late: seq<J>): seq<J>
    decreases |bs|
  {
    if |bs| == 0 then late else Owed(bs[1..], ok, bs[0][JoinLength(bs[0], ok)..])
  }

  /** `process(callback)` of both queues: the batches in turn, `process`
      resolving once the last join has ended, then the settlements no join
      waited for. */
  function ProcessTrace<J>(bs: seq<seq<J>>, ok: J -> bool, pacing: Pacing): seq<Event<J>> {
    Launched(bs, ok, pacing, true, []) + [Done] + Settles(Owed(bs, ok, []), ok)
  }

  lemma FailFastRoundProject<J>(b: seq<J>, ok: J -> bool, pacing: Pacing, first: bool, late: seq<J>)
    ensures var r := FailFastRound(b, ok, pacing, first, late);
            Dispatched(r) == b && Settled(r) == late + b[..JoinLength(b, ok)] && Dones(r) == 0 &&
            Delays(r) == (if first || pacing.Unpaced? then 0 else 1)
  {
    var g: seq<Event<J>> := if first then [] else Gap(pacing);
    var k := JoinLength(b, ok);
    var d, sl, sb := Dispatches(b), Settles(late, ok), Settles(b[..k], ok);
    var x := g + d;
    var y := x + sl;
    GapProject<J>(pacing, first);
    assert Dispatched(x) == b && Settled(x) == [] && Dones(x) == 0 && Delays(x) == Delays(g) by {
      DispatchesProject(b);
      ProjectAppend(g, d);
    }
    assert Dispatched(y) == b && Settled(y) == late && Dones(y) == 0 && Delays(y) == Delays(g) by {
      SettlesProject(late, ok);
      ProjectAppend(x, sl);
    }
    assert FailFastRound(b, ok, pacing, first, late) == y + sb;
    SettlesProject(b[..k], ok);
    ProjectAppend(y, sb);
  }

  /** Every job of bs is dispatched once, in order, with one timer per batch
      after the first when paced, and `process` has not resolved yet. */
  lemma {:induction false} LaunchedDispatches<J>(bs: seq<seq<J>>, ok: J -> bool, pacing: Pacing, first: bool, late: seq<J>)
    ensures var t := Launched(bs, ok, pacing, first, late);
            Dispatched(t) == Flatten(bs) && Dones(t) == 0 &&
            Delays(t) == (if pacing.Unpaced? || |bs| == 0 then 0
                          else if first then |bs| - 1 else |bs|)
    decreases |bs|
  {
    if |bs| > 0 {
      var b := bs[0];
      var r := FailFastRound(b, ok, pacing, first, late);
      var rest := Launched(bs[1..], ok, pacing, false, b[JoinLength(b, ok)..]);
      FailFastRoundProject(b, ok, pacing, first, late);
      LaunchedDispatches(bs[1..], ok, pacing, false, b[JoinLength(b, ok)..]);
      ProjectAppend(r, rest);
    }
  }

  /** The settlements listed and those still owed are, together, the owed
      jobs taken over and the jobs of bs. */
  lemma {:induction false} LaunchedSettles<J>(bs: seq<seq<J>>, ok: J -> bool, pacing: Pacing, first: bool, late: seq<J>)
    ensures multiset(Settled(Launched(bs, ok, pacing, first, late))) + multiset(Owed(bs, ok, late))
         == multiset(late) + multiset(Flatten(bs))
    decreases |bs|
  {
    if |bs| > 0 {
      var b := bs[0];
      var k := JoinLength(b, ok);
      var r := FailFastRound(b, ok, pacing, first, late);
      var rest := Launched(bs[1..], ok, pacing, false, b[k..]);
      FailFastRoundProject(b, ok, pacing, first, late);
      LaunchedSettles(bs[1..], ok, pacing, false, b[k..]);
      SettledAppend(r, rest);
      MultisetSplit(late, b, k, Settled(rest), Owed(bs[1..], ok, b[k..]), Flatten(bs[1..]));
    }
  }

  lemma MultisetSplit<J>(late: seq<J>, b: seq<J>, k: nat, s: seq<J>, o: seq<J>, f: seq<J>)
    requires k <= |b|
    requires multiset(s) + multiset(o) == multiset(b[k..]) + multiset(f)
    ensures multiset(late + b[..k] + s) + multiset(o) == multiset(late) + multiset(b + f)
  {
    assert b + f == b[..k] + (b[k..] + f);
    calc {
      multiset(late + b[..k] + s) + multiset(o);
      multiset(late) + multiset(b[..k]) + (multiset(s) + multiset(o));
      multiset(late) + multiset(b[..k]) + (multiset(b[k..]) + multiset(f));
      multiset(late) + (multiset(b[..k]) + multiset(b[k..] + f));
      multiset(late) + multiset(b + f);
    }
  }

  lemma {:induction false} OwedAppend<J>(a: seq<seq<J>>, c: seq<seq<J>>, ok: J -> bool, late: seq<J>)
    ensures Owed(a + c, ok, late) == Owed(c, ok, Owed(a, ok, late))
    decreases |a|
  {
    if |a| == 0 {
      assert a + c == c;
    } else {
      assert (a + c)[0] == a[0];
      assert (a + c)[1..] == a[1..] + c;
      OwedAppend(a[1..], c, ok, a[0][JoinLength(a[0], ok)..]);
    }
  }

  lemma {:induction false} LaunchedAppend<J>(a: seq<seq<J>>, c: seq<seq<J>>, ok: J -> bool, pacing: Pacing, first: bool, late: seq<J>)
    ensures Launched(a + c, ok, pacing, first, late)
         == Launched(a, ok, pacing, first, late) + Launched(c, ok, pacing, first && |a| == 0, Owed(a, ok, late))
    decreases |a|
  {
    if |a| == 0 {
      assert a + c == c;
    } else {
      var owed := a[0][JoinLength(a[0], ok)..];
      assert (a + c)[0] == a[0];
      assert (a + c)[1..] == a[1..] + c;
      assert Owed(a, ok, late) == Owed(a[1..], ok, owed);
      LaunchedAppend(a[1..], c, ok, pacing, false, owed);
    }
  }

  /** After a non-empty run of batches, only the last one can still owe settlements. */
  lemma {:induction false} OwedLast<J>(bs: seq<seq<J>>, ok: J -> bool, late: seq<J>)
    requires |bs| > 0
    ensures Owed(bs, ok, late) == bs[|bs| - 1][JoinLength(bs[|bs| - 1], ok)..]
    decreases |bs|
  {
    if |bs| > 1 {
      OwedLast(bs[1..], ok, bs[0][JoinLength(bs[0], ok)..]);
    }
  }

  /** When every callback fulfils, each `Promise.all` join waits for its whole batch. */
  lemma {:induction false} LaunchedFulfilled<J>(bs: seq<seq<J>>, ok: J -> bool, pacing: Pacing, first: bool)
    requires Fulfils(Flatten(bs), ok)
    ensures Launched(bs, ok, pacing, first, []) == BatchTrace(bs, ok, pacing, first)
    ensures Owed(bs, ok, []) == []
    decreases |bs|
  {
    if |bs| > 0 {
      var b := bs[0];
      FulfilsAppend(b, Flatten(bs[1..]), ok);
      assert JoinLength(b, ok) == |b|;
      assert b[..|b|] == b && b[|b|..] == [];
      var g: seq<Event<J>> := if first then [] else Gap(pacing);
      assert FailFastRound(b, ok, pacing, first, []) == g + Dispatches(b) + [] + Settles(b, ok);
      assert g + Dispatches(b) + [] == g + Dispatches(b);
      LaunchedFulfilled(bs[1..], ok, pacing, false);
    }
  }

  /** When every callback fulfils, the run is the settle-all run. */
  lemma ProcessTraceFulfilled<J>(bs: seq<seq<J>>, ok: J -> bool, pacing: Pacing)
    requires Fulfils(Flatten(bs), ok)
    ensures ProcessTrace(bs, ok, pacing) == SettledTrace(bs, ok, pacing)
  {
    LaunchedFulfilled(bs, ok, pacing, true);
    assert Settles([], ok) == [];
    assert BatchTrace(bs, ok, pacing, true) + [Done] + [] == BatchTrace(bs, ok, pacing, true) + [Done];
  }

  /** Every job is dispatched once, in order, and settles once; `process`
      resolves exactly once, after every join has ended. */
  lemma ProcessTraceProject<J>(bs: seq<seq<J>>, ok: J -> bool, pacing: Pacing)
    ensures var t := ProcessTrace(bs, ok, pacing);
            Dispatched(t) == Flatten(bs) && multiset(Settled(t)) == multiset(Flatten(bs)) &&
            Dones(t) == 1 && BeforeDone(t) == Launched(bs, ok, pacing, true, []) &&
            Delays(t) == (if pacing.Unpaced? || |bs| == 0 then 0 else |bs| - 1)
  {
    ProcessTraceLaunches(bs, ok, pacing);
    ProcessTraceSettles(bs, ok, pacing);
  }

  lemma ProcessTraceLaunches<J>(bs: seq<seq<J>>, ok: J -> bool, pacing: Pacing)
    ensures var t := ProcessTrace(bs, ok, pacing);
            Dispatched(t) == Flatten(bs) &&
            Dones(t) == 1 && BeforeDone(t) == Launched(bs, ok, pacing, true, []) &&
            Delays(t) == (if pacing.Unpaced? || |bs| == 0 then 0 else |bs| - 1)
  {
    var l := Launched(bs, ok, pacing, true, []);
    var d: seq<Event<J>> := [Done];
    var o := Settles(Owed(bs, ok, []), ok);
    LaunchedDispatches(bs, ok, pacing, true, []);
    SettlesProject(Owed(bs, ok, []), ok);
    ProjectAppend(l, d);
    ProjectAppend(l + d, o);
    BeforeDoneAt(l, o);
  }

  lemma ProcessTraceSettles<J>(bs: seq<seq<J>>, ok: J -> bool, pacing: Pacing)
    ensures multiset(Settled(ProcessTrace(bs, ok, pacing))) == multiset(Flatten(bs))
  {
    var l := Launched(bs, ok, pacing, true, []);
    var o := Owed(bs, ok, []);
    assert Settled(ProcessTrace(bs, ok, pacing)) == Settled(l) + o by {
      var d: seq<Event<J>> := [Done];
      SettlesProject(o, ok);
      SettledAppend(l, d);
      SettledAppend(l + d, Settles(o, ok));
    }
    LaunchedSettles(bs, ok, pacing, true, []);
  }

  lemma {:induction false} LaunchedReports<J>(bs: seq<seq<J>>, ok: J -> bool, pacing: Pacing, first: bool, late: seq<J>)
    ensures SettlesAsReported(Launched(bs, ok, pacing, first, late), ok)
    ensures pacing.Paced? ==> DelaysAre(Launched(bs, ok, pacing, first, late), pacing.millis)
    decreases |bs|
  {
    if |bs| > 0 {
      LaunchedReports(bs[1..], ok, pacing, false, bs[0][JoinLength(bs[0], ok)..]);
    }
  }

  lemma ProcessTraceReports<J>(bs: seq<seq<J>>, ok: J -> bool, pacing: Pacing)
    ensures SettlesAsReported(ProcessTrace(bs, ok, pacing), ok)
    ensures pacing.Paced? ==> DelaysAre(ProcessTrace(bs, ok, pacing), pacing.millis)
  {
    LaunchedReports(bs, ok, pacing, true, []);
  }

  /** Batch i is dispatched once the joins before it have ended: what was
      dispatched before it is the batches before it, of which everything has
      settled except what the join of batch i - 1 did not wait for. */
  lemma FailFastGating<J>(bs: seq<seq<J>>, ok: J -> bool, pacing: Pacing, i: nat)
    requires i < |bs|
    ensures var before := Launched(bs[..i], ok, pacing, true, []);
            var owed := Owed(bs[..i], ok, []);
            var k := JoinLength(bs[i], ok);
            Launched(bs, ok, pacing, true, [])
              == before + FailFastRound(bs[i], ok, pacing, i == 0, owed)
                 + Launched(bs[i + 1..], ok, pacing, false, bs[i][k..]) &&
            owed == (if i == 0 then [] else bs[i - 1][JoinLength(bs[i - 1], ok)..]) &&
            Dispatched(before) == Flatten(bs[..i]) &&
            multiset(Settled(before)) + multiset(owed) == multiset(Flatten(bs[..i])) &&
            Load(before) == |owed|
  {
    var a, c := bs[..i], bs[i..];
    var owed := Owed(a, ok, []);
    GatingShape(bs, ok, pacing, i);
    if i > 0 {
      OwedLast(a, ok, []);
      assert a[i - 1] == bs[i - 1];
    }
    var before := Launched(a, ok, pacing, true, []);
    LaunchedDispatches(a, ok, pacing, true, []);
    LaunchedSettles(a, ok, pacing, true, []);
    assert |Settled(before)| + |owed| == |Flatten(a)| by {
      assert |multiset(Settled(before)) + multiset(owed)| == |multiset(Flatten(a))|;
    }
  }

  /** Up to batch i's dispatches, the run is the rounds before it, the timer
      (for every batch but the first) and batch i's dispatches. */
  lemma GatingPrefix<J>(bs: seq<seq<J>>, ok: J -> bool, pacing: Pacing, i: nat)
    requires i < |bs|
    ensures var head := Launched(bs[..i], ok, pacing, true, [])
                        + (if i == 0 then [] else Gap(pacing)) + Dispatches(bs[i]);
            |head| <= |ProcessTrace(bs, ok, pacing)| && ProcessTrace(bs, ok, pacing)[..|head|] == head
  {
    var before := Launched(bs[..i], ok, pacing, true, []);
    var g: seq<Event<J>> := if i == 0 then [] else Gap(pacing);
    var owed := Owed(bs[..i], ok, []);
    var k := JoinLength(bs[i], ok);
    var later := Launched(bs[i + 1..], ok, pacing, false, bs[i][k..]);
    GatingShape(bs, ok, pacing, i);
    Regroup(before, g, Dispatches(bs[i]), Settles(owed, ok), Settles(bs[i][..k], ok), later,
            [Done], Settles(Owed(bs, ok, []), ok));
  }

  /** Regrouping a run split round by round so that a prefix stands apart. */
  lemma Regroup<T>(a: seq<T>, b: seq<T>, c: seq<T>, d: seq<T>, e: seq<T>, f: seq<T>, g: seq<T>, h: seq<T>)
    ensures var whole := (a + (b + c + d + e) + f) + g + h;
            |a + b + c| <= |whole| && whole[..|a + b + c|] == a + b + c
  {
    var whole := (a + (b + c + d + e) + f) + g + h;
    assert whole == (a + b + c) + (d + e + f + g + h);
  }

  lemma GatingShape<J>(bs: seq<seq<J>>, ok: J -> bool, pacing: Pacing, i: nat)
    requires i < |bs|
    ensures Launched(bs, ok, pacing, true, [])
         == Launched(bs[..i], ok, pacing, true, [])
            + FailFastRound(bs[i], ok, pacing, i == 0, Owed(bs[..i], ok, []))
            + Launched(bs[i + 1..], ok, pacing, false, bs[i][JoinLength(bs[i], ok)..])
  {
    var a, c := bs[..i], bs[i..];
    var owed := Owed(a, ok, []);
    var r := FailFastRound(bs[i], ok, pacing, i == 0, owed);
    var l := Launched(bs[i + 1..], ok, pacing, false, bs[i][JoinLength(bs[i], ok)..]);
    assert Launched(bs, ok, pacing, true, []) == Launched(a, ok, pacing, true, []) + Launched(c, ok, pacing, true && |a| == 0, owed) by {
      assert bs == a + c;
      LaunchedAppend(a, c, ok, pacing, true, []);
    }
    assert Launched(c, ok, pacing, true && |a| == 0, owed) == r + l by {
      assert c[0] == bs[i] && c[1..] == bs[i + 1..];
    }
    AppendAssoc(Launched(a, ok, pacing, true, []), r, l);
  }

  lemma AppendAssoc<T>(a: seq<T>, b: seq<T>, c: seq<T>)
    ensures a + (b + c) == a + b + c
  {
  }

  /** A rejection at the head of a batch ends its join at once: the next
      batch is dispatched while the rest of the first is still running. */
  lemma FailFastOverlap<J>(bs: seq<seq<J>>, ok: J -> bool, pacing: Pacing)
    requires |bs| >= 2 && |bs[0]| >= 1 && !ok(bs[0][0])
    ensures var t := ProcessTrace(bs, ok, pacing);
            var p := |bs[0]| + 1 + |Gap<J>(pacing)| + |bs[1]|;
            p <= |t| && Load(t[..p]) == |bs[0]| - 1 + |bs[1]|
  {
    var b0, b1 := bs[0], bs[1];
    var g: seq<Event<J>> := Gap(pacing);
    OverlapShape(bs, ok, pacing);
    var x := Dispatches(b0) + Settles(b0[..1], ok);
    DispatchesProject(b0);
    DispatchesProject(b1);
    SettlesProject(b0[..1], ok);
    GapProject<J>(pacing, false);
    assert Load(x) == |b0| - 1 by {
      ProjectAppend(Dispatches(b0), Settles(b0[..1], ok));
    }
    assert Load(x + g) == |b0| - 1 by {
      ProjectAppend(x, g);
    }
    ProjectAppend(x + g, Dispatches(b1));
  }

  /** The start of a run whose first job rejects: batch 0's dispatches, that
      one settlement, then batch 1's pause and dispatches. */
  lemma OverlapShape<J>(bs: seq<seq<J>>, ok: J -> bool, pacing: Pacing)
    requires |bs| >= 2 && |bs[0]| >= 1 && !ok(bs[0][0])
    ensures var head := Dispatches(bs[0]) + Settles(bs[0][..1], ok) + Gap(pacing) + Dispatches(bs[1]);
            |head| <= |ProcessTrace(bs, ok, pacing)| && ProcessTrace(bs, ok, pacing)[..|head|] == head
  {
    var b0, b1 := bs[0], bs[1];
    var g: seq<Event<J>> := Gap(pacing);
    var head := Dispatches(b0) + Settles(b0[..1], ok) + g + Dispatches(b1);
    var t := ProcessTrace(bs, ok, pacing);
    assert JoinLength(b0, ok) == 1;
    var owed := b0[1..];
    var r0 := FailFastRound(b0, ok, pacing, true, []);
    assert r0 == Dispatches(b0) + Settles(b0[..1], ok) by {
      assert Settles([], ok) == [];
    }
    assert bs[1..][0] == b1 && bs[1..][1..] == bs[2..];
    var l2 := Launched(bs[2..], ok, pacing, false, b1[JoinLength(b1, ok)..]);
    var r1 := FailFastRound(b1, ok, pacing, false, owed);
    assert Launched(bs, ok, pacing, true, []) == r0 + r1 + l2 by {
      assert Launched(bs, ok, pacing, true, []) == r0 + (r1 + l2);
    }
    Regroup(r0, g, Dispatches(b1), Settles(owed, ok), Settles(b1[..JoinLength(b1, ok)], ok), l2,
            [Done], Settles(Owed(bs, ok, []), ok));
  }

  // -------------------------------------------------------------- launches

  /** The trace with only its dispatches and timers: what the scheduler starts, in order. */
  function Launches<J>(t: seq<Event<J>>): seq<Event<J>> {
    if |t| == 0 then []
    else (if t[0].Dispatch? || t[0].Delay? then [t[0]] else []) + Launches(t[1..])
  }

  lemma {:induction false} LaunchesAppend<J>(a: seq<Event<J>>, b: seq<Event<J>>)
    ensures Launches(a + b) == Launches(a) + Launches(b)
  {
    if |a| == 0 {
      assert a + b == b;
    } else {
      var h := if a[0].Dispatch? || a[0].Delay? then [a[0]] else [];
      assert (a + b)[0] == a[0];
      assert (a + b)[1..] == a[1..] + b;
      assert Launches(a + b) == h + Launches(a[1..] + b);
      LaunchesAppend(a[1..], b);
      assert Launches(a) == h + Launches(a[1..]);
    }
  }

  lemma {:induction false} LaunchesOfDispatches<J>(b: seq<J>)
    ensures Launches(Dispatches(b)) == Dispatches(b)
  {
    if |b| > 0 {
      assert Dispatches(b)[1..] == Dispatches(b[1..]);
      LaunchesOfDispatches(b[1..]);
    }
  }

  lemma {:induction false} LaunchesOfSettles<J>(b: seq<J>, ok: J -> bool)
    ensures Launches(Settles(b, ok)) == []
  {
    if |b| > 0 {
      assert Settles(b, ok)[1..] == Settles(b[1..], ok);
      LaunchesOfSettles(b[1..], ok);
    }
  }

  /** A round's launches do not depend on outcomes or on what was owed. */
  lemma FailFastRoundLaunches<J>(b: seq<J>, ok: J -> bool, pacing: Pacing, first: bool, late: seq<J>)
    ensures Launches(FailFastRound(b, ok, pacing, first, late))
         == Launches((if first then [] else Gap(pacing)) + Dispatches(b))
  {
    var h: seq<Event<J>> := (if first then [] else Gap(pacing)) + Dispatches(b);
    LaunchesOfSettles(late, ok);
    LaunchesOfSettles(b[..JoinLength(b, ok)], ok);
    LaunchesAppend(h, Settles(late, ok));
    LaunchesAppend(h + Settles(late, ok), Settles(b[..JoinLength(b, ok)], ok));
  }

  lemma {:induction false} LaunchedLaunches<J>(bs: seq<seq<J>>, ok1: J -> bool, ok2: J -> bool, pacing: Pacing, first: bool, late1: seq<J>, late2: seq<J>)
    ensures Launches(Launched(bs, ok1, pacing, first, late1)) == Launches(Launched(bs, ok2, pacing, first, late2))
    decreases |bs|
  {
    if |bs| > 0 {
      var b := bs[0];
      var r1 := FailFastRound(b, ok1, pacing, first, late1);
      var r2 := FailFastRound(b, ok2, pacing, first, late2);
      FailFastRoundLaunches(b, ok1, pacing, first, late1);
      FailFastRoundLaunches(b, ok2, pacing, first, late2);
      var rest1 := Launched(bs[1..], ok1, pacing, false, b[JoinLength(b, ok1)..]);
      var rest2 := Launched(bs[1..], ok2, pacing, false, b[JoinLength(b, ok2)..]);
      LaunchedLaunches(bs[1..], ok1, ok2, pacing, false, b[JoinLength(b, ok1)..], b[JoinLength(b, ok2)..]);
      LaunchesAppend(r1, rest1);
      LaunchesAppend(r2, rest2);
    }
  }

  /** Rejections change when settlements arrive and when joins end, never
      which timers run and which callbacks are called, in what order. */
  lemma LaunchesIgnoreOutcomes<J>(bs: seq<seq<J>>, ok1: J -> bool, ok2: J -> bool, pacing: Pacing)
    ensures Launches(ProcessTrace(bs, ok1, pacing)) == Launches(ProcessTrace(bs, ok2, pacing))
  {
    var l1, l2 := Launched(bs, ok1, pacing, true, []), Launched(bs, ok2, pacing, true, []);
    var d: seq<Event<J>> := [Done];
    LaunchedLaunches(bs, ok1, ok2, pacing, true, [], []);
    LaunchesOfSettles(Owed(bs, ok1, []), ok1);
    LaunchesOfSettles(Owed(bs, ok2, []), ok2);
    LaunchesAppend(l1, d);
    LaunchesAppend(l2, d);
    LaunchesAppend(l1 + d, Settles(Owed(bs, ok1, []), ok1));
    LaunchesAppend(l2 + d, Settles(Owed(bs, ok2, []), ok2));
  }
}
