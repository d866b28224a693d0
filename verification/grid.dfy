/** The capture grid of index.js: the bounding box is cut into a matrix of
    coordinates, one per screenshot, spaced 0.03 degrees of latitude by 0.06
    degrees of longitude; the cells are numbered 1 .. rows * cols in row-major
    order, and either all of them or the one named by `--tile` are pushed onto
    the request queue. Coordinates are exact reals. */
module Grid {
  import opened Arith
  import opened Matrix
  import GatedQueue

  const LatOffset: real := 0.03
  const LngOffset: real := 0.06

  datatype Coord = Coord(lat: real, lng: real)

  /** The south-west and north-east corners the geocoder reports. */
  datatype Bounds = Bounds(sw: Coord, ne: Coord)

  function Abs(x: real): (a: real)
    ensures a >= 0.0 && (a == x || a == -x)
  {
    if x < 0.0 then -x else x
  }

  /** Scaling by a positive real keeps strict and non-strict order. */
  lemma ScaleOrder(a: real, b: real, c: real)
    requires c > 0.0
    ensures a < b ==> a * c < b * c
    ensures a <= b ==> a * c <= b * c
  {
    assert b * c - a * c == (b - a) * c;
  }

  /** Comparing a with b is comparing a * c with b * c = d. */
  lemma Scaled(a: real, b: real, c: real, d: real)
    requires c > 0.0 && b * c == d
    ensures a < b ==> a * c < d
    ensures a <= b ==> a * c <= d
    ensures b < a ==> d < a * c
    ensures b <= a ==> d <= a * c
  {
    ScaleOrder(a, b, c);
    ScaleOrder(b, a, c);
  }

  /** The number of steps along one axis: the least n with n * offset >= |max - min|. */
  function Steps(min: real, max: real, offset: real): (n: int)
    requires offset > 0.0
    ensures n >= 0
    ensures n as real * offset >= Abs(max - min)
    ensures (n as real - 1.0) * offset < Abs(max - min)
    ensures n as real - 1.0 < Abs(max - min) / offset <= n as real
  {
    var diff := Abs(max - min);
    var q := diff / offset;
    var k := Ceil(q);
    assert q * offset == diff;
    Scaled(k as real, q, offset, diff);
    Scaled(k as real - 1.0, q, offset, diff);
    k
  }

  /** An axis has no steps exactly when its extent is zero. */
  lemma StepsZero(min: real, max: real, offset: real)
    requires offset > 0.0
    ensures Steps(min, max, offset) == 0 <==> min == max
  {
  }

  /** The grid's rows follow latitude, its columns longitude. */
  function Rows(b: Bounds): nat { Steps(b.sw.lat, b.ne.lat, LatOffset) }
  function Cols(b: Bounds): nat { Steps(b.sw.lng, b.ne.lng, LngOffset) }

  /** rows * cols, the number of cells of the grid. */
  function CellCount(b: Bounds): nat {
    var rows, cols := Rows(b), Cols(b);
    MulMono(0, rows, cols);
    rows * cols
  }

  /** The coordinate of cell (x, y): x latitude steps and y longitude steps from
      the south-west corner. */
  function CellCoord(b: Bounds, x: nat, y: nat): Coord {
    Coord(b.sw.lat + x as real * LatOffset, b.sw.lng + y as real * LngOffset)
  }

  /** The coordinate matrix, built as an empty matrix then filled. */
  function Cells(b: Bounds): (m: seq<seq<Coord>>)
    ensures |m| == Rows(b) && Rectangular(m, Cols(b))
    ensures forall x, y :: 0 <= x < Rows(b) && 0 <= y < Cols(b) ==> m[x][y] == CellCoord(b, x, y)
  {
    Fill(Make<Coord>(Rows(b), Cols(b)), (row: seq<Cell<Coord>>, cell: Cell<Coord>, x: nat, y: nat) => CellCoord(b, x, y))
  }

  /** Along one axis, step x of n lies in [min, min + diff) ... */
  lemma AxisInside(min: real, max: real, offset: real, x: nat)
    requires offset > 0.0 && x < Steps(min, max, offset)
    ensures min <= min + x as real * offset < min + Abs(max - min)
  {
    var diff := Abs(max - min);
    var q := diff / offset;
    assert q * offset == diff;
    Scaled(x as real, q, offset, diff);
    ScaleOrder(0.0, x as real, offset);
  }

  /** ... and every point of [min, min + diff) lies in the strip of exactly one step. */
  lemma AxisCovered(min: real, max: real, offset: real, p: real)
    requires offset > 0.0 && min <= p < min + Abs(max - min)
    ensures var x := ((p - min) / offset).Floor;
            0 <= x < Steps(min, max, offset) &&
            min + x as real * offset <= p < min + (x as real + 1.0) * offset
  {
    var diff := Abs(max - min);
    var q := diff / offset;
    var qp := (p - min) / offset;
    var x := qp.Floor;
    assert q * offset == diff;
    assert qp * offset == p - min;
    Scaled(q, qp, offset, p - min);
    assert qp < q;
    Scaled(x as real, qp, offset, p - min);
    Scaled(x as real + 1.0, qp, offset, p - min);
  }

  /** Every cell of the grid lies inside the box spanned from the south-west
      corner by the two extents. */
  lemma CellsInside(b: Bounds, x: nat, y: nat)
    requires x < Rows(b) && y < Cols(b)
    ensures var c := Cells(b)[x][y];
            b.sw.lat <= c.lat < b.sw.lat + Abs(b.ne.lat - b.sw.lat) &&
            b.sw.lng <= c.lng < b.sw.lng + Abs(b.ne.lng - b.sw.lng)
  {
    AxisInside(b.sw.lat, b.ne.lat, LatOffset, x);
    AxisInside(b.sw.lng, b.ne.lng, LngOffset, y);
  }

  /** Every point of that box falls in the screenshot strip of some cell. */
  lemma CellsCover(b: Bounds, p: Coord)
    requires b.sw.lat <= p.lat < b.sw.lat + Abs(b.ne.lat - b.sw.lat)
    requires b.sw.lng <= p.lng < b.sw.lng + Abs(b.ne.lng - b.sw.lng)
    ensures exists x, y :: 0 <= x < Rows(b) && 0 <= y < Cols(b) &&
              Cells(b)[x][y].lat <= p.lat < Cells(b)[x][y].lat + LatOffset &&
              Cells(b)[x][y].lng <= p.lng < Cells(b)[x][y].lng + LngOffset
  {
    AxisCovered(b.sw.lat, b.ne.lat, LatOffset, p.lat);
    AxisCovered(b.sw.lng, b.ne.lng, LngOffset, p.lng);
    var x := ((p.lat - b.sw.lat) / LatOffset).Floor;
    var y := ((p.lng - b.sw.lng) / LngOffset).Floor;
    assert Cells(b)[x][y] == CellCoord(b, x, y);
  }

  /** One screenshot request: its number in the grid, its cell, and its
      coordinate (the URL and file path are built from these). */
  datatype Job = Job(number: nat, x: nat, y: nat, coords: Coord)

  /** Every cell as a request, numbered in the order the nested `forEach` visits them. */
  function Jobs(m: seq<seq<Coord>>): (js: seq<Job>)
    ensures |js| == |Each(m)|
  {
    var vs := Each(m);
    seq(|vs|, k requires 0 <= k < |vs| => Job(k + 1, vs[k].r, vs[k].c, vs[k].cell))
  }

  /** Cell (x, y) of the capture grid is request number x * cols + y + 1, and
      there are rows * cols requests. */
  lemma JobNumbering(b: Bounds, x: nat, y: nat)
    requires x < Rows(b) && y < Cols(b)
    ensures var js := Jobs(Cells(b));
            |js| == CellCount(b) &&
            x * Cols(b) + y < |js| &&
            js[x * Cols(b) + y] == Job(x * Cols(b) + y + 1, x, y, CellCoord(b, x, y))
  {
    var m := Cells(b);
    EachCount(m, Cols(b));
    RowMajorAt(m, Cols(b), x, y);
  }

  /** Conversely, request number k + 1 is for cell (k / cols, k % cols). */
  lemma JobCell(b: Bounds, k: nat)
    requires k < |Jobs(Cells(b))|
    ensures var js := Jobs(Cells(b));
            Cols(b) > 0 && k / Cols(b) < Rows(b) &&
            js[k] == Job(k + 1, k / Cols(b), k % Cols(b), CellCoord(b, k / Cols(b), k % Cols(b)))
  {
    RowMajorIndex(Cells(b), Cols(b), k);
  }

  /** The `--tile` option: absent, a number, or a string that converts to no
      integer (`+tile` is NaN or has a fraction, so it equals no grid number). */
  datatype TileArg = Absent | Number(n: int) | NotANumber

  /** Whether a request is pushed onto the queue. */
  predicate Wanted(j: Job, arg: TileArg) {
    match arg
    case Absent => true
    case Number(t) => j.number == t
    case NotANumber => false
  }

  /** The requests pushed, in visiting order. */
  function Select(js: seq<Job>, arg: TileArg): (r: seq<Job>)
    ensures |r| <= |js|
  {
    if |js| == 0 then []
    else Select(js[..|js| - 1], arg) + (if Wanted(js[|js| - 1], arg) then [js[|js| - 1]] else [])
  }

  /** The selection holds exactly the wanted requests. */
  lemma {:induction false} SelectMembers(js: seq<Job>, arg: TileArg)
    ensures forall j :: j in Select(js, arg) <==> j in js && Wanted(j, arg)
  {
    if |js| > 0 {
      var init := js[..|js| - 1];
      SelectMembers(init, arg);
      assert js == init + [js[|js| - 1]];
    }
  }

  /** Without `--tile` every request is pushed. */
  lemma {:induction false} SelectAll(js: seq<Job>)
    ensures Select(js, Absent) == js
  {
    if |js| > 0 {
      SelectAll(js[..|js| - 1]);
    }
  }

  /** Requests numbered 1, 2, 3, ... in order. */
  predicate Numbered(js: seq<Job>) {
    forall k :: 0 <= k < |js| ==> js[k].number == k + 1
  }

  /** With `--tile t` exactly request t is pushed when 1 <= t <= n, and nothing otherwise. */
  lemma {:induction false} SelectTile(js: seq<Job>, t: int)
    requires Numbered(js)
    ensures Select(js, Number(t)) == if 1 <= t <= |js| then [js[t - 1]] else []
  {
    if |js| > 0 {
      var init := js[..|js| - 1];
      assert Numbered(init);
      SelectTile(init, t);
    }
  }

  /** A tile argument that is not a number selects nothing. */
  lemma {:induction false} SelectNaN(js: seq<Job>)
    ensures Select(js, NotANumber) == []
  {
    if |js| > 0 {
      SelectNaN(js[..|js| - 1]);
    }
  }

  lemma JobsNumbered(m: seq<seq<Coord>>)
    ensures Numbered(Jobs(m))
  {
  }

  /** A box of 0.1 by 0.1 degrees is a 4 x 2 grid of 8 requests, and
      `--tile 5` selects only the request for cell (2, 0). */
  lemma SmallBox()
    ensures var b := Bounds(Coord(0.0, 0.0), Coord(0.1, 0.1));
            Rows(b) == 4 && Cols(b) == 2 && |Jobs(Cells(b))| == 8 &&
            Select(Jobs(Cells(b)), Number(5)) == [Job(5, 2, 0, Coord(0.06, 0.0))]
  {
    var b := Bounds(Coord(0.0, 0.0), Coord(0.1, 0.1));
    assert Rows(b) == 4;
    assert Cols(b) == 2;
    JobNumbering(b, 2, 0);
    JobsNumbered(Cells(b));
    SelectTile(Jobs(Cells(b)), 5);
  }

  /** The progress bar's total: 1 when a tile was asked for, the grid size otherwise. */
  function ProgressTotal(arg: TileArg, n: nat): nat {
    if arg.Absent? then n else 1
  }

  /** Selecting from a concatenation selects from each part. */
  lemma {:induction false} SelectAppend(a: seq<Job>, b: seq<Job>, arg: TileArg)
    ensures Select(a + b, arg) == Select(a, arg) + Select(b, arg)
  {
    if |b| == 0 {
      assert a + b == a;
    } else {
      var b' := b[..|b| - 1];
      assert (a + b)[..|a + b| - 1] == a + b';
      SelectAppend(a, b', arg);
    }
  }

  /** The selection from the first hi requests is the selection from the
      first lo of them followed by the selection from the rest. */
  lemma SelectSplit(js: seq<Job>, lo: nat, hi: nat, arg: TileArg)
    requires lo <= hi <= |js|
    ensures Select(js[..hi], arg) == Select(js[..lo], arg) + Select(js[lo..hi], arg)
  {
    assert js[..hi] == js[..lo] + js[lo..hi];
    SelectAppend(js[..lo], js[lo..hi], arg);
  }

  /** Visiting cell (x, y) meets request number k + 1, where k counts the
      cells before it; that request extends the selection from request lo on
      by itself if wanted. */
  lemma EnqueueStep(m: seq<seq<Coord>>, x: nat, y: nat, k: nat, lo: nat, arg: TileArg)
    requires x < |m| && y < |m[x]| && k == |Each(m[..x])| + y && lo <= k
    ensures var job := Job(k + 1, x, y, m[x][y]);
            k < |Jobs(m)| && Jobs(m)[k] == job &&
            Select(Jobs(m)[lo..k + 1], arg) ==
              Select(Jobs(m)[lo..k], arg) + (if Wanted(job, arg) then [job] else [])
  {
    EachAt(m, x, y);
    var js := Jobs(m);
    assert js[lo..k + 1][..k - lo] == js[lo..k];
  }

  /** After row x the count has moved past its cells. */
  lemma EachRowDone<T>(m: seq<seq<T>>, x: nat)
    requires x < |m|
    ensures |Each(m[..x + 1])| == |Each(m[..x])| + |m[x]| <= |Each(m)|
  {
    EachSnoc(m, x);
    EachPrefix(m, x + 1);
  }

  /** The inner `forEach` over row x of index.js: counts the row's cells on
      from i and pushes the wanted requests among them. */
  method EnqueueRow(q: GatedQueue.Queue<Job>, m: seq<seq<Coord>>, x: nat, i: nat, arg: TileArg)
    returns (q': GatedQueue.Queue<Job>, i': nat)
    requires x < |m| && i == |Each(m[..x])|
    ensures i' == |Each(m[..x + 1])| && i <= i' <= |Jobs(m)|
    ensures q'.items == q.items + Select(Jobs(m)[i..i'], arg)
    ensures q'.limit == q.limit
  {
    EachRowDone(m, x);
    q' := q;
    i' := i;
    var row := m[x];
    var y := 0;
    while y < |row|
      invariant y <= |row|
      invariant i' == i + y
      invariant q'.items == q.items + Select(Jobs(m)[i..i'], arg)
      invariant q'.limit == q.limit
    {
      var job := Job(i' + 1, x, y, row[y]);
      EnqueueStep(m, x, y, i', i, arg);
      ghost var before := Select(Jobs(m)[i..i'], arg);
      ghost var after := Select(Jobs(m)[i..i' + 1], arg);
      if Wanted(job, arg) {
        q' := GatedQueue.Push(q', job);
        assert after == before + [job];
        assert q'.items == q.items + after;
      } else {
        assert after == before;
      }
      i' := i' + 1;
      y := y + 1;
    }
  }

  /** The nested `forEach` of index.js: visits the cells in order, counts them
      in `i`, and pushes the wanted requests onto the queue. */
  method Enqueue(q: GatedQueue.Queue<Job>, m: seq<seq<Coord>>, arg: TileArg)
    returns (q': GatedQueue.Queue<Job>, i: nat)
    ensures q'.items == q.items + Select(Jobs(m), arg)
    ensures q'.limit == q.limit
    ensures i == |Each(m)|
  {
    q' := q;
    i := 0;
    var x := 0;
    ghost var js := Jobs(m);
    while x < |m|
      invariant x <= |m|
      invariant i == |Each(m[..x])| && i <= |js|
      invariant q'.items == q.items + Select(js[..i], arg)
      invariant q'.limit == q.limit
    {
      var i' := i;
      q', i' := EnqueueRow(q', m, x, i, arg);
      SelectSplit(js, i, i', arg);
      i := i';
      x := x + 1;
    }
    EnqueueDone(m, js, x, i, arg);
  }

  lemma EnqueueDone(m: seq<seq<Coord>>, js: seq<Job>, x: nat, i: nat, arg: TileArg)
    requires x == |m| && i == |Each(m[..x])| && |js| == |Each(m)|
    ensures i == |js| && js[..i] == js
  {
    assert m[..x] == m;
  }
}
