/** Pixel grids of counts, as values: rows top to bottom, each row a
    sequence of cells left to right, indexed g[y][x].  The renderers build
    their grids in arrays; these functions say what those arrays hold. */
module Grids {

  type Grid = seq<seq<nat>>

  /** g has rows rows of cols cells each. */
  predicate HasShape(g: Grid, rows: nat, cols: nat) {
    |g| == rows && forall y :: 0 <= y < rows ==> |g[y]| == cols
  }

  /** The zero-initialised grid. */
  function Zeros(rows: nat, cols: nat): (g: Grid)
    ensures HasShape(g, rows, cols)
    ensures forall y, x :: 0 <= y < rows && 0 <= x < cols ==> g[y][x] == 0
  {
    seq(rows, _ => seq(cols, _ => 0))
  }

  /** The grid with one more hit in cell (y, x) and every other cell as it
      was. */
  function Increment(g: Grid, y: nat, x: nat): (r: Grid)
    requires y < |g| && x < |g[y]|
    ensures |r| == |g| && forall i :: 0 <= i < |g| ==> |r[i]| == |g[i]|
    ensures r[y][x] == g[y][x] + 1
    ensures forall i, j :: 0 <= i < |g| && 0 <= j < |g[i]| && (i, j) != (y, x) ==> r[i][j] == g[i][j]
  {
    g[y := g[y][x := g[y][x] + 1]]
  }

  /** The element-wise sum of two grids of one shape. */
  function AddGrids(a: Grid, b: Grid): (r: Grid)
    requires |a| == |b| && forall y :: 0 <= y < |a| ==> |a[y]| == |b[y]|
    ensures |r| == |a| && forall y :: 0 <= y < |a| ==> |r[y]| == |a[y]|
    ensures forall y, x :: 0 <= y < |a| && 0 <= x < |a[y]| ==> r[y][x] == a[y][x] + b[y][x]
  {
    seq(|a|, y requires 0 <= y < |a| => seq(|a[y]|, x requires 0 <= x < |a[y]| => a[y][x] + b[y][x]))
  }

  /** The sum of the cells of one row. */
  function RowTotal(row: seq<nat>): nat {
    if row == [] then 0 else RowTotal(row[..|row| - 1]) + row[|row| - 1]
  }

  /** The sum of all cells. */
  function Total(g: Grid): nat {
    if g == [] then 0 else Total(g[..|g| - 1]) + RowTotal(g[|g| - 1])
  }

  // ---------------------------------------------------------------------
  // Laws of the grid operations

  /** Two grids of one shape that agree cell by cell are equal. */
  lemma Extensionality(a: Grid, b: Grid, rows: nat, cols: nat)
    requires HasShape(a, rows, cols) && HasShape(b, rows, cols)
    requires forall y, x :: 0 <= y < rows && 0 <= x < cols ==> a[y][x] == b[y][x]
    ensures a == b
  {
    forall y | 0 <= y < rows
      ensures a[y] == b[y]
    {
      assert forall x :: 0 <= x < cols ==> a[y][x] == b[y][x];
    }
  }

  /** Grid addition is commutative and associative and has the zero grid as
      its identity, so a sum of grids does not depend on how it is
      bracketed or ordered. */
  lemma AddCommutative(a: Grid, b: Grid, rows: nat, cols: nat)
    requires HasShape(a, rows, cols) && HasShape(b, rows, cols)
    ensures AddGrids(a, b) == AddGrids(b, a)
  {
    Extensionality(AddGrids(a, b), AddGrids(b, a), rows, cols);
  }

  lemma AddAssociative(a: Grid, b: Grid, c: Grid, rows: nat, cols: nat)
    requires HasShape(a, rows, cols) && HasShape(b, rows, cols) && HasShape(c, rows, cols)
    ensures AddGrids(AddGrids(a, b), c) == AddGrids(a, AddGrids(b, c))
  {
    Extensionality(AddGrids(AddGrids(a, b), c), AddGrids(a, AddGrids(b, c)), rows, cols);
  }

  lemma AddZeros(a: Grid, rows: nat, cols: nat)
    requires HasShape(a, rows, cols)
    ensures AddGrids(Zeros(rows, cols), a) == a
  {
    Extensionality(AddGrids(Zeros(rows, cols), a), a, rows, cols);
  }

  /** (a + b) + c == (a + c) + b: a term can be moved to the end. */
  lemma AddSwapLast(a: Grid, b: Grid, c: Grid, rows: nat, cols: nat)
    requires HasShape(a, rows, cols) && HasShape(b, rows, cols) && HasShape(c, rows, cols)
    ensures AddGrids(AddGrids(a, b), c) == AddGrids(AddGrids(a, c), b)
  {
    Extensionality(AddGrids(AddGrids(a, b), c), AddGrids(AddGrids(a, c), b), rows, cols);
  }

  /** The zero grid holds no hits. */
  lemma {:induction false} TotalZeros(rows: nat, cols: nat)
    ensures Total(Zeros(rows, cols)) == 0
  {
    ZeroRowsTotal(Zeros(rows, cols), cols);
  }

  lemma {:induction false} ZeroRowsTotal(g: Grid, cols: nat)
    requires forall y :: 0 <= y < |g| ==> g[y] == seq(cols, _ => 0)
    ensures Total(g) == 0
  {
    if g != [] {
      ZeroRowsTotal(g[..|g| - 1], cols);
      ZeroRowTotal(g[|g| - 1]);
    }
  }

  lemma {:induction false} ZeroRowTotal(row: seq<nat>)
    requires forall x :: 0 <= x < |row| ==> row[x] == 0
    ensures RowTotal(row) == 0
  {
    if row != [] {
      ZeroRowTotal(row[..|row| - 1]);
    }
  }

  /** One increment adds exactly one hit to the total. */
  lemma {:induction false} TotalIncrement(g: Grid, y: nat, x: nat)
    requires y < |g| && x < |g[y]|
    ensures Total(Increment(g, y, x)) == Total(g) + 1
  {
    var r := Increment(g, y, x);
    if y == |g| - 1 {
      assert r[..|r| - 1] == g[..|g| - 1];
      RowTotalUpdate(g[y], x);
    } else {
      assert r[..|r| - 1] == Increment(g[..|g| - 1], y, x);
      TotalIncrement(g[..|g| - 1], y, x);
    }
  }

  lemma {:induction false} RowTotalUpdate(row: seq<nat>, x: nat)
    requires x < |row|
    ensures RowTotal(row[x := row[x] + 1]) == RowTotal(row) + 1
  {
    var r := row[x := row[x] + 1];
    if x == |row| - 1 {
      assert r[..|r| - 1] == row[..|row| - 1];
    } else {
      assert r[..|r| - 1] == row[..|row| - 1][x := row[x] + 1];
      RowTotalUpdate(row[..|row| - 1], x);
    }
  }

  /** The total of a sum of grids is the sum of their totals. */
  lemma {:induction false} TotalAdd(a: Grid, b: Grid)
    requires |a| == |b| && forall y :: 0 <= y < |a| ==> |a[y]| == |b[y]|
    ensures Total(AddGrids(a, b)) == Total(a) + Total(b)
  {
    if a != [] {
      var n := |a| - 1;
      assert AddGrids(a, b)[..n] == AddGrids(a[..n], b[..n]);
      TotalAdd(a[..n], b[..n]);
      RowTotalAdd(a[n], b[n], AddGrids(a, b)[n]);
    }
  }

  lemma {:induction false} RowTotalAdd(u: seq<nat>, v: seq<nat>, w: seq<nat>)
    requires |u| == |v| == |w| && forall x :: 0 <= x < |u| ==> w[x] == u[x] + v[x]
    ensures RowTotal(w) == RowTotal(u) + RowTotal(v)
  {
    if u != [] {
      var n := |u| - 1;
      RowTotalAdd(u[..n], v[..n], w[..n]);
    }
  }

  /** No cell holds more than the total. */
  lemma {:induction false} CellAtMostTotal(g: Grid, y: nat, x: nat)
    requires y < |g| && x < |g[y]|
    ensures g[y][x] <= Total(g)
  {
    if y == |g| - 1 {
      CellAtMostRowTotal(g[y], x);
    } else {
      CellAtMostTotal(g[..|g| - 1], y, x);
    }
  }

  lemma {:induction false} CellAtMostRowTotal(row: seq<nat>, x: nat)
    requires x < |row|
    ensures row[x] <= RowTotal(row)
  {
    if x < |row| - 1 {
      CellAtMostRowTotal(row[..|row| - 1], x);
    }
  }
}
