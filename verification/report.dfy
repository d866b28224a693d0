/** The capture run of index.js: the requests are pushed onto the batch queue
    of lib/queue.js, each one is captured by a callback that never rejects (a
    failed capture is caught and logged), its coordinates land in `success`
    or in `errors`, the progress bar moves one step per settled capture, and
    once the promise `process` returns has resolved the final message reports
    either complete success or the number of errors collected so far. */
module Report {
  import opened Chunking
  import opened Matrix
  import opened Trace
  import opened Grid
  import GatedQueue

  /** The `success` and `errors` lists, in the order the captures settled. */
  datatype Tally = Tally(success: seq<Job>, errors: seq<Job>)

  /** The closing message. */
  datatype Report = AllSaved | SavedWithErrors(count: nat, errors: seq<Job>)

  /** The outcome of the capture callback's promise: a failed capture is
      caught and recorded, so the promise always fulfils. */
  function Handled(j: Job): bool {
    true
  }

  /** The jobs of xs whose capture outcome is want, in order. */
  function Outcomes(xs: seq<Job>, captured: Job -> bool, want: bool): (ys: seq<Job>)
    ensures |ys| <= |xs|
  {
    if |xs| == 0 then []
    else (if captured(xs[0]) == want then [xs[0]] else []) + Outcomes(xs[1..], captured, want)
  }

  /** A job is in the successes or in the errors, and not in both: the two
      lists together are a permutation of the settled jobs. */
  lemma {:induction false} OutcomesPartition(xs: seq<Job>, captured: Job -> bool)
    ensures multiset(Outcomes(xs, captured, true)) + multiset(Outcomes(xs, captured, false)) == multiset(xs)
    ensures |Outcomes(xs, captured, true)| + |Outcomes(xs, captured, false)| == |xs|
  {
    if |xs| > 0 {
      OutcomesPartition(xs[1..], captured);
      assert xs == [xs[0]] + xs[1..];
    }
  }

  /** Outcomes(xs, captured, want) holds exactly the jobs of xs whose outcome is want. */
  lemma {:induction false} OutcomesMembers(xs: seq<Job>, captured: Job -> bool, want: bool)
    ensures forall j :: j in Outcomes(xs, captured, want) <==> j in xs && captured(j) == want
  {
    if |xs| > 0 {
      OutcomesMembers(xs[1..], captured, want);
      assert xs == [xs[0]] + xs[1..];
    }
  }

  /** The lists the capture callbacks have built once the events of t have
      happened: each settlement adds its job to `success` if the capture
      worked and to `errors` otherwise, so `success` lists the settled jobs
      that were captured and `errors` those that failed, each in settlement
      order. */
  function Record(t: seq<Event<Job>>, captured: Job -> bool): (r: Tally)
    ensures r.success == Outcomes(Settled(t), captured, true)
    ensures r.errors == Outcomes(Settled(t), captured, false)
  {
    if |t| == 0 then Tally([], [])
    else
      var rest := Record(t[1..], captured);
      if t[0].Settle? then
        var j := t[0].job;
        assert Settled(t) == [j] + Settled(t[1..]);
        assert ([j] + Settled(t[1..]))[1..] == Settled(t[1..]);
        if captured(j) then Tally([j] + rest.success, rest.errors)
        else Tally(rest.success, [j] + rest.errors)
      else
        assert Settled(t) == Settled(t[1..]);
        rest
  }

  /** The final branch: an error report exactly when something is in `errors`. */
  function ReportOf(tally: Tally): (r: Report)
    ensures r.AllSaved? <==> |tally.errors| == 0
    ensures r.SavedWithErrors? ==> r.count == |tally.errors| && r.errors == tally.errors
  {
    if |tally.errors| > 0 then SavedWithErrors(|tally.errors|, tally.errors) else AllSaved
  }

  /** The `.finally` handler on the promise `process` returns: it reports the
      lists as they stand when that promise has resolved. */
  function Finish(t: seq<Event<Job>>, captured: Job -> bool): (r: Report)
    ensures r.AllSaved? <==> forall j :: j in Settled(BeforeDone(t)) ==> captured(j)
    ensures r.SavedWithErrors? ==> r.count == |Outcomes(Settled(BeforeDone(t)), captured, false)|
  {
    NoErrorsIffAllCaptured(Settled(BeforeDone(t)), captured);
    ReportOf(Record(BeforeDone(t), captured))
  }

  /** Nothing failed exactly when no job has the failing outcome. */
  lemma NoErrorsIffAllCaptured(xs: seq<Job>, captured: Job -> bool)
    ensures |Outcomes(xs, captured, false)| == 0 <==> forall j :: j in xs ==> captured(j)
  {
    OutcomesMembers(xs, captured, false);
    if |Outcomes(xs, captured, false)| > 0 {
      assert Outcomes(xs, captured, false)[0] in Outcomes(xs, captured, false);
    }
  }

  /** An error reported early is still a real error: every job settled before
      `process` resolved is one of the requests. */
  lemma EarlyErrorsAreRequests(t: seq<Event<Job>>, requests: seq<Job>, captured: Job -> bool)
    requires multiset(Settled(t)) == multiset(requests)
    requires |Outcomes(Settled(BeforeDone(t)), captured, false)| > 0
    ensures exists j :: j in requests && !captured(j)
  {
    var xs := Settled(BeforeDone(t));
    var j := Outcomes(xs, captured, false)[0];
    OutcomesMembers(xs, captured, false);
    SettledBeforeDone(t);
    assert j in Settled(t);
    assert j in multiset(requests);
  }

  /** The whole run over the box b with the given `--tile` argument, as
      index.js runs it on lib/queue.js, where captured(j) says whether
      capturing request j succeeds: the requests pushed, the grid counter,
      the progress total, the scheduler's trace, the two lists when
      `process` has resolved, and the report. Every request is dispatched and
      settles; the report is built from what had settled when `process`
      resolved, which is every request only when there are at most
      2 * limit of them. */
  method Run(b: Bounds, arg: TileArg, captured: Job -> bool)
    returns (requests: seq<Job>, visited: nat, total: nat, t: seq<Event<Job>>, tally: Tally, report: Report)
    ensures requests == Select(Jobs(Cells(b)), arg)
    ensures visited == CellCount(b)
    ensures total == ProgressTotal(arg, CellCount(b))
    ensures multiset(Dispatched(t)) == multiset(requests) && multiset(Settled(t)) == multiset(requests)
    ensures Dones(t) == 1
    ensures tally.success == Outcomes(Settled(BeforeDone(t)), captured, true)
    ensures tally.errors == Outcomes(Settled(BeforeDone(t)), captured, false)
    ensures report.AllSaved? <==> forall j :: j in Settled(BeforeDone(t)) ==> captured(j)
    ensures report.SavedWithErrors? ==> report.count == |tally.errors| && exists j :: j in requests && !captured(j)
    ensures |requests| <= 2 * GatedQueue.DefaultLimit ==>
              Settled(BeforeDone(t)) == requests &&
              (report.AllSaved? <==> forall j :: j in requests ==> captured(j))
  {
    var cells := Cells(b);
    var q := GatedQueue.Init<Job>();
    q, visited := Enqueue(q, cells, arg);
    EachCount(cells, Cols(b));
    requests := q.items;
    total := ProgressTotal(arg, CellCount(b));
    t := GatedQueue.ProcessAsWritten(q, Handled);
    tally := Record(BeforeDone(t), captured);
    report := Finish(t, captured);
    if report.SavedWithErrors? {
      EarlyErrorsAreRequests(t, requests, captured);
    }
    if |requests| <= 2 * GatedQueue.DefaultLimit {
      GatedQueue.AsWrittenMeetsIntentUpToTwoBatches(q, Handled);
    }
  }

  /** When exactly three captured jobs have settled as `process` resolves,
      the report says complete success. */
  lemma ThreeCapturedAllSaved(t: seq<Event<Job>>, a: Job, b: Job, e: Job, captured: Job -> bool)
    requires Settled(BeforeDone(t)) == [a, b, e] && captured(a) && captured(b) && captured(e)
    ensures Finish(t, captured).AllSaved?
  {
  }

  /** Five requests whose third capture fails: when `process` resolves only
      the first, second and fifth captures have settled, so the run reports
      complete success although a capture failed. */
  lemma AsWrittenReportsTooEarly(a: Job, b: Job, c: Job, d: Job, e: Job, captured: Job -> bool)
    requires captured(a) && captured(b) && captured(e) && !captured(c)
    ensures var requests := [a, b, c, d, e];
            Finish(GatedQueue.ProcessAsWritten(GatedQueue.Queue(GatedQueue.DefaultLimit, requests), Handled), captured).AllSaved? &&
            c in requests && !captured(c)
  {
    var xs := [a, b, c, d, e];
    var t := GatedQueue.ProcessAsWritten(GatedQueue.Queue(GatedQueue.DefaultLimit, xs), Handled);
    assert Settled(BeforeDone(t)) == [a, b, e] by {
      assert Fulfils(xs, Handled);
      GatedQueue.FiveRequestsResolveEarly(a, b, c, d, e, Handled);
    }
    ThreeCapturedAllSaved(t, a, b, e, captured);
  }

  /** The run as evidently intended: each batch waits for the whole previous
      batch and the report is built once every capture has settled, so it
      says complete success exactly when every capture worked, and the
      scheduler never has more than limit captures in flight. */
  method RunIntended(b: Bounds, arg: TileArg, captured: Job -> bool)
    returns (requests: seq<Job>, visited: nat, total: nat, t: seq<Event<Job>>, tally: Tally, report: Report)
    ensures requests == Select(Jobs(Cells(b)), arg)
    ensures visited == CellCount(b)
    ensures total == ProgressTotal(arg, CellCount(b))
    ensures Dispatched(t) == requests && Settled(BeforeDone(t)) == requests
    ensures Bounded(t, GatedQueue.DefaultLimit)
    ensures tally.success == Outcomes(requests, captured, true)
    ensures tally.errors == Outcomes(requests, captured, false)
    ensures report.AllSaved? <==> forall j :: j in requests ==> captured(j)
    ensures report.SavedWithErrors? ==> report.count == |Outcomes(requests, captured, false)|
  {
    var cells := Cells(b);
    var q := GatedQueue.Init<Job>();
    q, visited := Enqueue(q, cells, arg);
    EachCount(cells, Cols(b));
    requests := q.items;
    total := ProgressTotal(arg, CellCount(b));
    t := GatedQueue.ProcessIntended(q, Handled);
    tally := Record(BeforeDone(t), captured);
    report := Finish(t, captured);
  }

  /** Every capture moves the progress bar once, so its count ends at the
      number of requests; that is the bar's total exactly when no tile was
      asked for or the tile asked for is in the grid. A tile outside
      1 .. rows * cols (or not a number) pushes nothing, leaving the bar at 0
      of 1. */
  lemma ProgressCompletes(b: Bounds, arg: TileArg)
    ensures var requests := Select(Jobs(Cells(b)), arg);
            var t := GatedQueue.ProcessAsWritten(GatedQueue.Queue(GatedQueue.DefaultLimit, requests), Handled);
            var n := CellCount(b);
            |Settled(t)| == |requests| &&
            (|Settled(t)| == ProgressTotal(arg, n) <==>
               arg.Absent? || (arg.Number? && 1 <= arg.n <= n))
  {
    var js := Jobs(Cells(b));
    var requests := Select(js, arg);
    var t := GatedQueue.ProcessAsWritten(GatedQueue.Queue(GatedQueue.DefaultLimit, requests), Handled);
    assert |Settled(t)| == |requests| by {
      assert |multiset(Settled(t))| == |multiset(requests)|;
    }
    EachCount(Cells(b), Cols(b));
    JobsNumbered(Cells(b));
    match arg {
      case Absent => SelectAll(js);
      case Number(k) => SelectTile(js, k);
      case NotANumber => SelectNaN(js);
    }
  }
}
