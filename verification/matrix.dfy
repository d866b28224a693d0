/** The matrix helper of lib/utils/matrix.js: a matrix is a sequence of rows,
    each a sequence of cells. `make` builds an empty rows x cols matrix, `fill`
    replaces every cell by a callback's value, `each` visits every cell in
    row-major order, and `new` is `fill` after `make`. */
module Matrix {
  import opened Arith

  /** A cell of a freshly made matrix: `null` until filled. */
  datatype Cell<T> = Null | Value(value: T)

  /** The callback's four arguments for one cell: the row, the cell, and its
      row and column index. */
  datatype Visit<T> = Visit(row: seq<T>, cell: T, r: nat, c: nat)

  /** Every row holds exactly cols cells. */
  predicate Rectangular<T>(m: seq<seq<T>>, cols: nat) {
    forall r :: 0 <= r < |m| ==> |m[r]| == cols
  }

  /** `make(rows, cols)`: rows separate rows of cols null cells. */
  function Make<T>(rows: nat, cols: nat): (m: seq<seq<Cell<T>>>)
    ensures |m| == rows && Rectangular(m, cols)
    ensures forall r, c :: 0 <= r < rows && 0 <= c < cols ==> m[r][c] == Null
  {
    seq(rows, _ => seq(cols, _ => Null))
  }

  /** `fill(matrix, callback)`: a new matrix of the same shape whose cell (r, c)
      is the callback applied to row r, the old cell, r and c. */
  function Fill<T, U>(m: seq<seq<T>>, f: (seq<T>, T, nat, nat) -> U): (m': seq<seq<U>>)
    ensures |m'| == |m|
    ensures forall r :: 0 <= r < |m| ==> |m'[r]| == |m[r]|
    ensures forall r, c :: 0 <= r < |m| && 0 <= c < |m[r]| ==> m'[r][c] == f(m[r], m[r][c], r, c)
  {
    seq(|m|, r requires 0 <= r < |m| =>
      seq(|m[r]|, c requires 0 <= c < |m[r]| => f(m[r], m[r][c], r, c)))
  }

  /** Filling with a callback that returns the old cell changes nothing. */
  lemma FillIdentity<T>(m: seq<seq<T>>)
    ensures Fill(m, (row: seq<T>, cell: T, r: nat, c: nat) => cell) == m
  {
    var m' := Fill(m, (row: seq<T>, cell: T, r: nat, c: nat) => cell);
    forall r | 0 <= r < |m|
      ensures m'[r] == m[r]
    {
    }
  }

  /** Filling twice is filling once with the second callback applied to the
      first one's result (the row argument is the row as the first fill left it). */
  lemma FillFill<T, U, V>(m: seq<seq<T>>, f: (seq<T>, T, nat, nat) -> U, g: (seq<U>, U, nat, nat) -> V)
    ensures var m1 := Fill(m, f);
            Fill(m1, g) == Fill(m, (row: seq<T>, cell: T, r: nat, c: nat) =>
              g(if r < |m1| then m1[r] else [], f(row, cell, r, c), r, c))
  {
    var m1 := Fill(m, f);
    var h := (row: seq<T>, cell: T, r: nat, c: nat) =>
      g(if r < |m1| then m1[r] else [], f(row, cell, r, c), r, c);
    var a, b := Fill(m1, g), Fill(m, h);
    forall r | 0 <= r < |m|
      ensures a[r] == b[r]
    {
    }
  }

  /** The visits of one row r, left to right. */
  function RowVisits<T>(row: seq<T>, r: nat): (vs: seq<Visit<T>>)
    ensures |vs| == |row|
  {
    seq(|row|, c requires 0 <= c < |row| => Visit(row, row[c], r, c))
  }

  /** v is the callback's call for a cell of m: its indices are in range and
      its row and cell are m's. */
  ghost predicate VisitOf<T>(m: seq<seq<T>>, v: Visit<T>) {
    v.r < |m| && v.c < |m[v.r]| && v.row == m[v.r] && v.cell == m[v.r][v.c]
  }

  /** `each(matrix, callback)`: the callback's calls, in order. */
  function Each<T>(m: seq<seq<T>>): seq<Visit<T>> {
    if |m| == 0 then [] else Each(m[..|m| - 1]) + RowVisits(m[|m| - 1], |m| - 1)
  }

  /** Every call `each` makes is for a cell of the matrix, with its row and value. */
  lemma {:induction false} EachVisitsCells<T>(m: seq<seq<T>>)
    ensures forall k :: 0 <= k < |Each(m)| ==> VisitOf(m, Each(m)[k])
  {
    if |m| > 0 {
      var init := m[..|m| - 1];
      EachVisitsCells(init);
      var a, b := Each(init), RowVisits(m[|m| - 1], |m| - 1);
      forall k | 0 <= k < |a + b|
        ensures VisitOf(m, (a + b)[k])
      {
        if k < |a| {
          assert (a + b)[k] == a[k] && VisitOf(init, a[k]);
        } else {
          assert (a + b)[k] == b[k - |a|];
        }
      }
    }
  }

  /** Visiting rows 0 .. x then row x. */
  lemma EachSnoc<T>(m: seq<seq<T>>, x: nat)
    requires x < |m|
    ensures Each(m[..x + 1]) == Each(m[..x]) + RowVisits(m[x], x)
  {
    assert m[..x + 1][..x] == m[..x];
  }

  /** The visits of the first x rows come first. */
  lemma {:induction false} EachPrefix<T>(m: seq<seq<T>>, x: nat)
    requires x <= |m|
    ensures |Each(m[..x])| <= |Each(m)|
    ensures Each(m)[..|Each(m[..x])|] == Each(m[..x])
    decreases |m| - x
  {
    assert m[..|m|] == m;
    if x < |m| {
      EachPrefix(m, x + 1);
      EachSnoc(m, x);
    }
  }

  /** Cell (x, y) is visited right after all cells of the rows before x and
      the first y cells of row x. */
  lemma EachAt<T>(m: seq<seq<T>>, x: nat, y: nat)
    requires x < |m| && y < |m[x]|
    ensures |Each(m[..x])| + y < |Each(m)|
    ensures Each(m)[|Each(m[..x])| + y] == Visit(m[x], m[x][y], x, y)
  {
    EachSnoc(m, x);
    EachPrefix(m, x + 1);
    var k := |Each(m[..x])| + y;
    assert Each(m[..x + 1])[k] == RowVisits(m[x], x)[y];
  }

  /** In a matrix whose rows all hold cols cells, the first x rows hold x * cols cells. */
  lemma {:induction false} EachPrefixCount<T>(m: seq<seq<T>>, cols: nat, x: nat)
    requires Rectangular(m, cols) && x <= |m|
    ensures |Each(m[..x])| == x * cols
  {
    if x > 0 {
      EachPrefixCount(m, cols, x - 1);
      EachSnoc(m, x - 1);
      assert |m[x - 1]| == cols;
      assert |Each(m[..x])| == |Each(m[..x - 1])| + cols;
      assert x * cols == (x - 1) * cols + cols;
    }
  }

  /** In a rows x cols matrix the callback is called rows * cols times. */
  lemma EachCount<T>(m: seq<seq<T>>, cols: nat)
    requires Rectangular(m, cols)
    ensures |Each(m)| == |m| * cols
  {
    EachPrefixCount(m, cols, |m|);
    assert m[..|m|] == m;
  }

  /** Call k of `each` is for cell (x, y) of m. */
  ghost predicate VisitedAt<T>(m: seq<seq<T>>, k: int, x: nat, y: nat) {
    0 <= k < |Each(m)| && x < |m| && y < |m[x]| && Each(m)[k] == Visit(m[x], m[x][y], x, y)
  }

  /** Cell (x, y) is call x * cols + y of `each`. */
  ghost predicate RowMajorAtCell<T>(m: seq<seq<T>>, cols: nat, x: nat, y: nat) {
    VisitedAt(m, x * cols + y, x, y)
  }

  /** Row-major order: cell (x, y) of a rows x cols matrix is call x * cols + y. */
  lemma RowMajor<T>(m: seq<seq<T>>, cols: nat)
    requires Rectangular(m, cols)
    ensures forall x: nat, y: nat :: x < |m| && y < cols ==> RowMajorAtCell(m, cols, x, y)
  {
    forall x: nat, y: nat | x < |m| && y < cols
      ensures RowMajorAtCell(m, cols, x, y)
    {
      RowMajorAt(m, cols, x, y);
    }
  }

  lemma RowMajorAt<T>(m: seq<seq<T>>, cols: nat, x: nat, y: nat)
    requires Rectangular(m, cols) && x < |m| && y < cols
    ensures VisitedAt(m, x * cols + y, x, y)
  {
    EachPrefixCount(m, cols, x);
    EachAt(m, x, y);
  }

  /** Conversely, call k of `each` on a rows x cols matrix is for cell
      (k / cols, k % cols). */
  lemma RowMajorIndex<T>(m: seq<seq<T>>, cols: nat, k: nat)
    requires Rectangular(m, cols) && k < |Each(m)|
    ensures cols > 0 && VisitedAt(m, k, k / cols, k % cols)
  {
    EachPrefixCount(m, cols, |m|);
    assert m[..|m|] == m;
    QuotientBound(k, |m|, cols);
    var x, y := k / cols, k % cols;
    DivMod(k, cols);
    assert |m[x]| == cols;
    EachPrefixCount(m, cols, x);
    assert |Each(m[..x])| + y == k;
    EachAt(m, x, y);
  }

  /** `new(rows, cols, callback)`: a rows x cols matrix whose cell (r, c) is the
      callback's value for an empty row, a null cell, r and c. The empty
      cells carry no value, so their type T is independent of the result's U. */
  function New<T, U>(rows: nat, cols: nat, f: (seq<Cell<T>>, Cell<T>, nat, nat) -> U): (m: seq<seq<U>>)
    ensures |m| == rows && Rectangular(m, cols)
    ensures forall r, c :: 0 <= r < rows && 0 <= c < cols ==> m[r][c] == f(seq(cols, _ => Null), Null, r, c)
  {
    Fill(Make<T>(rows, cols), f)
  }
}
