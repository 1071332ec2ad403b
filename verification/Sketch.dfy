/** The ageing Count-Min Sketch with conservative update that feeds admission
    (`counter` in internal/aggregate/guard.go).

    The 64-bit hash of a value is a parameter; everything done with it is not.
    `Counter` is the code, over one flat array of cells. The specification sees
    the same cells as a grid with one row per hash position. */
module Sketch {

  const MAX32: nat := 0xFFFF_FFFF
  const TWO32: nat := 0x1_0000_0000
  const TWO64: nat := 0x1_0000_0000_0000_0000

  type Hash = h: nat | h < 0x1_0000_0000_0000_0000

  datatype Shape = Shape(depth: nat, width: nat, hash: string -> Hash)

  type Grid = seq<seq<nat>>

  datatype State = State(grid: Grid, adds: nat)

  /** The rows in use: the code keeps room for eight indices. */
  function Rows(sh: Shape): (n: nat)
    ensures n <= sh.depth && n <= 8
  {
    if sh.depth > 8 then 8 else sh.depth
  }

  /** The two halves of the hash, swapped. */
  function Swapped(h: Hash): nat {
    h / TWO32 + h % TWO32 * TWO32
  }

  /** The `i`-th probe of a hash: the hash plus `i` times its swapped form. */
  function Probe(h: Hash, i: nat): nat {
    if i == 0 then h else Probe(h, i - 1) + Swapped(h)
  }

  lemma {:induction false} ProbeIsProduct(h: Hash, i: nat)
    ensures Probe(h, i) == h + i * Swapped(h)
  {
    if i > 0 {
      ProbeIsProduct(h, i - 1);
    }
  }

  /** The column of `v` in row `i`, with the wrap-around of 64-bit words. */
  function Column(sh: Shape, v: string, i: nat): (c: nat)
    requires sh.width > 0
    ensures c < sh.width
  {
    Probe(sh.hash(v), i) % TWO64 % sh.width
  }

  ghost predicate GridOk(sh: Shape, g: Grid) {
    && sh.width > 0
    && |g| == sh.depth
    && (forall i :: 0 <= i < |g| ==> |g[i]| == sh.width)
    && (forall i, j :: 0 <= i < |g| && 0 <= j < |g[i]| ==> g[i][j] <= MAX32)
  }

  function Zeros(sh: Shape): Grid {
    seq(sh.depth, _ => seq(sh.width, _ => 0))
  }

  function HalvedRow(row: seq<nat>): seq<nat> {
    seq(|row|, j requires 0 <= j < |row| => row[j] / 2)
  }

  function Halved(g: Grid): Grid {
    seq(|g|, i requires 0 <= i < |g| => HalvedRow(g[i]))
  }

  /** The smallest of the first `k` cells of `v`; the largest word if there are none. */
  function Smallest(sh: Shape, g: Grid, v: string, k: nat): (m: nat)
    requires GridOk(sh, g) && k <= sh.depth
    ensures m <= MAX32
  {
    if k == 0 then MAX32
    else
      var m := Smallest(sh, g, v, k - 1);
      var c := g[k - 1][Column(sh, v, k - 1)];
      if c < m then c else m
  }

  function WithCell(g: Grid, i: nat, c: nat, x: nat): Grid
    requires i < |g| && c < |g[i]|
  {
    var row: seq<nat> := g[i][c := x];
    g[i := row]
  }

  /** Conservative update of the first `k` rows: only cells at the minimum grow. */
  function Raised(sh: Shape, g: Grid, v: string, m: nat, k: nat): Grid
    requires GridOk(sh, g) && k <= sh.depth
  {
    seq(|g|, i requires 0 <= i < |g| =>
      var c := Column(sh, v, i);
      if i < k && g[i][c] == m then g[i][c := m + 1] else g[i])
  }

  lemma RaisedOneMore(sh: Shape, g: Grid, v: string, m: nat, k: nat)
    requires GridOk(sh, g) && k < sh.depth
    ensures var c, r := Column(sh, v, k), Raised(sh, g, v, m, k);
            Raised(sh, g, v, m, k + 1) == if r[k][c] == m then WithCell(r, k, c, m + 1) else r
  {
  }

  /** Counting the addition, and halving every cell once `width` are counted. */
  function Aged(sh: Shape, s: State): State {
    if s.adds + 1 >= sh.width then State(Halved(s.grid), 0) else State(s.grid, s.adds + 1)
  }

  lemma AgedIsOk(sh: Shape, s: State)
    requires GridOk(sh, s.grid)
    ensures GridOk(sh, Aged(sh, s).grid)
  {
  }

  function AfterAdd(sh: Shape, s: State, v: string): (s': State)
    requires GridOk(sh, s.grid)
    ensures GridOk(sh, s'.grid)
  {
    AgedIsOk(sh, s);
    var a := Aged(sh, s);
    var m := Smallest(sh, a.grid, v, Rows(sh));
    if m == MAX32 then a else State(Raised(sh, a.grid, v, m, Rows(sh)), a.adds)
  }

  /** What an addition reports. */
  function Estimate(sh: Shape, s: State, v: string): nat
    requires GridOk(sh, s.grid)
  {
    AgedIsOk(sh, s);
    var m := Smallest(sh, Aged(sh, s).grid, v, Rows(sh));
    if m == MAX32 then m else m + 1
  }

  /** Clearing leaves the count of additions alone. */
  function AfterReset(sh: Shape, s: State): State {
    State(Zeros(sh), s.adds)
  }

  /** Where row `i` starts among the flat cells: at `i * width`. */
  function Start(width: nat, i: nat): nat {
    if i == 0 then 0 else Start(width, i - 1) + width
  }

  lemma {:induction false} StartIsProduct(width: nat, i: nat)
    ensures Start(width, i) == i * width
  {
    if i > 0 {
      StartIsProduct(width, i - 1);
    }
  }

  lemma {:induction false} LaterRowsStartLater(width: nat, i: nat, i': nat)
    requires i < i'
    ensures Start(width, i) + width <= Start(width, i')
  {
    if i + 1 < i' {
      LaterRowsStartLater(width, i, i' - 1);
    }
  }

  lemma RowsDoNotOverlap(width: nat, i: nat, j: nat, i': nat, j': nat)
    requires j < width && j' < width && Start(width, i) + j == Start(width, i') + j'
    ensures i == i' && j == j'
  {
    if i < i' {
      LaterRowsStartLater(width, i, i');
    } else if i' < i {
      LaterRowsStartLater(width, i', i);
    }
  }

  ghost predicate CellAgrees(sh: Shape, g: Grid, flat: seq<nat>, i: nat, j: nat)
    requires i < |g| && j < |g[i]|
  {
    && Start(sh.width, i) + j < |flat|
    && flat[Start(sh.width, i) + j] == g[i][j]
  }

  /** The flat cells hold the grid row by row. */
  ghost predicate Agrees(sh: Shape, g: Grid, flat: seq<nat>) {
    && GridOk(sh, g)
    && |flat| == Start(sh.width, sh.depth)
    && (forall i, j :: 0 <= i < |g| && 0 <= j < |g[i]| ==> CellAgrees(sh, g, flat, i, j))
  }

  lemma ZerosAgree(sh: Shape, flat: seq<nat>)
    requires sh.width > 0 && |flat| == Start(sh.width, sh.depth)
    requires forall m :: 0 <= m < |flat| ==> flat[m] == 0
    ensures Agrees(sh, Zeros(sh), flat)
  {
    var z := Zeros(sh);
    forall i, j | 0 <= i < |z| && 0 <= j < |z[i]|
      ensures CellAgrees(sh, z, flat, i, j)
    {
      LaterRowsStartLater(sh.width, i, sh.depth);
    }
  }

  lemma HalvesAgree(sh: Shape, g: Grid, flat: seq<nat>, flat': seq<nat>)
    requires Agrees(sh, g, flat) && |flat'| == |flat|
    requires forall m :: 0 <= m < |flat| ==> flat'[m] == flat[m] / 2
    ensures Agrees(sh, Halved(g), flat')
  {
    AgedIsOk(sh, State(g, sh.width));
    var h := Halved(g);
    forall i, j | 0 <= i < |h| && 0 <= j < |h[i]|
      ensures CellAgrees(sh, h, flat', i, j)
    {
      assert CellAgrees(sh, g, flat, i, j);
      assert h[i][j] == g[i][j] / 2;
    }
  }

  lemma OneCellAgrees(sh: Shape, g: Grid, flat: seq<nat>, i: nat, c: nat, x: nat)
    requires Agrees(sh, g, flat) && i < sh.depth && c < sh.width && x <= MAX32
    ensures CellAgrees(sh, g, flat, i, c)
    ensures Agrees(sh, WithCell(g, i, c, x), flat[Start(sh.width, i) + c := x])
  {
    assert CellAgrees(sh, g, flat, i, c);
    var g' := WithCell(g, i, c, x);
    var flat' := flat[Start(sh.width, i) + c := x];
    forall i', j' | 0 <= i' < |g'| && 0 <= j' < |g'[i']|
      ensures CellAgrees(sh, g', flat', i', j')
    {
      assert CellAgrees(sh, g, flat, i', j');
      if Start(sh.width, i') + j' == Start(sh.width, i) + c {
        RowsDoNotOverlap(sh.width, i, c, i', j');
      }
    }
  }

  ghost function Place(sh: Shape, v: string, i: nat): nat
    requires sh.width > 0
  {
    Start(sh.width, i) + Column(sh, v, i)
  }

  /** `idx` are the places of `v` in the first rows. */
  ghost predicate Places(sh: Shape, v: string, idx: seq<nat>)
    requires sh.width > 0
  {
    forall i :: 0 <= i < |idx| ==> idx[i] == Place(sh, v, i)
  }

  lemma OnePlaceMore(sh: Shape, v: string, idx: seq<nat>, cell: nat)
    requires sh.width > 0 && Places(sh, v, idx) && cell == Place(sh, v, |idx|)
    ensures Places(sh, v, idx + [cell])
  {
  }

  class Counter {
    const shape: Shape
    const cells: array<nat>
    var adds: nat

    ghost var Cells: Grid  // the flat cells, row by row

    ghost predicate Valid()
      reads this, cells
    {
      Agrees(shape, Cells, cells[..])
    }

    ghost function Now(): State
      reads this
    {
      State(Cells, adds)
    }

    constructor (depth: nat, width: nat, hash: string -> Hash)
      requires width > 0
      ensures Valid() && fresh(cells)
      ensures shape == Shape(depth, width, hash)
      ensures Now() == State(Zeros(shape), 0)
    {
      shape := Shape(depth, width, hash);
      cells := new nat[depth * width](_ => 0);
      adds := 0;
      Cells := Zeros(Shape(depth, width, hash));
      new;
      StartIsProduct(width, depth);
      ZerosAgree(shape, cells[..]);
    }

    method Halve()
      requires Valid()
      modifies this, cells
      ensures Valid()
      ensures Now() == State(Halved(old(Cells)), 0)
    {
      for k := 0 to cells.Length
        invariant Cells == old(Cells)
        invariant forall m :: 0 <= m < k ==> cells[m] == old(cells[m]) / 2
        invariant forall m :: k <= m < cells.Length ==> cells[m] == old(cells[m])
      {
        cells[k] := cells[k] / 2;
      }
      adds := 0;
      HalvesAgree(shape, Cells, old(cells[..]), cells[..]);
      Cells := Halved(Cells);
    }

    method Reset()
      requires Valid()
      modifies this, cells
      ensures Valid()
      ensures Now() == AfterReset(shape, old(Now()))
    {
      for k := 0 to cells.Length
        invariant Cells == old(Cells) && adds == old(adds)
        invariant forall m :: 0 <= m < k ==> cells[m] == 0
      {
        cells[k] := 0;
      }
      Cells := Zeros(shape);
      ZerosAgree(shape, cells[..]);
    }

    method Add(v: string) returns (est: nat)
      requires Valid()
      modifies this, cells
      ensures Valid()
      ensures est == Estimate(shape, old(Now()), v)
      ensures Now() == AfterAdd(shape, old(Now()), v)
    {
      adds := adds + 1;
      if adds >= shape.width {
        Halve();
      }
      assert Now() == Aged(shape, old(Now()));
      var min, idx := Locate(v);
      if min == MAX32 {
        return min;
      }
      Raise(v, min, idx);
      return min + 1;
    }

    /** Where row `i` keeps `v` among the flat cells. */
    method CellOf(v: string, i: nat) returns (cell: nat)
      requires shape.width > 0
      ensures cell == Place(shape, v, i)
    {
      StartIsProduct(shape.width, i);
      return i * shape.width + Column(shape, v, i);
    }

    /** The cells of `v`, and the smallest of them. */
    method Locate(v: string) returns (min: nat, idx: seq<nat>)
      requires Valid()
      ensures min == Smallest(shape, Cells, v, Rows(shape))
      ensures |idx| == Rows(shape) && Places(shape, v, idx)
    {
      idx, min := [], MAX32;
      for i := 0 to Rows(shape)
        invariant |idx| == i && Places(shape, v, idx)
        invariant min == Smallest(shape, Cells, v, i)
      {
        var cell := CellOf(v, i);
        OnePlaceMore(shape, v, idx, cell);
        idx := idx + [cell];
        assert CellAgrees(shape, Cells, cells[..], i, Column(shape, v, i));
        if cells[idx[i]] < min {
          min := cells[idx[i]];
        }
      }
    }

    /** The conservative update: of these cells, raise those at the minimum. */
    method Raise(v: string, min: nat, idx: seq<nat>)
      requires Valid() && min < MAX32 && |idx| == Rows(shape) && Places(shape, v, idx)
      modifies this`Cells, cells
      ensures Valid()
      ensures Cells == Raised(shape, old(Cells), v, min, Rows(shape))
    {
      assert Cells == Raised(shape, Cells, v, min, 0);
      for i := 0 to |idx|
        invariant Valid()
        invariant Cells == Raised(shape, old(Cells), v, min, i)
      {
        RaisedOneMore(shape, old(Cells), v, min, i);
        RaiseCell(i, Column(shape, v, i), idx[i], min);
      }
    }

    /** Raises a cell if it is at the minimum. */
    method RaiseCell(i: nat, c: nat, cell: nat, min: nat)
      requires Valid() && i < shape.depth && c < shape.width && cell == Start(shape.width, i) + c && min < MAX32
      modifies this`Cells, cells
      ensures Valid()
      ensures Cells == if old(Cells)[i][c] == min then WithCell(old(Cells), i, c, min + 1) else old(Cells)
    {
      OneCellAgrees(shape, Cells, cells[..], i, c, min + 1);
      if cells[cell] == min {
        ghost var flat: seq<nat> := cells[..];
        var raised: nat := min + 1;
        cells[cell] := raised;
        assert cells[..] == flat[cell := raised];
        Cells := WithCell(Cells, i, c, raised);
      }
    }
  }
}
