/**
 * Conway's Game of Life (rule B3/S23) on the 32 x 32 toroidal grid of the
 * enhanced VJ demo.  A grid is a list of rows; the step builds a new grid
 * with nested loops over the rows, the columns and the 3 x 3 offsets.
 */
module Life {

  const Height: int := 32
  const Width: int := 32

  type Grid = seq<seq<int>>

  predicate IsGrid(g: Grid) {
    |g| == Height && forall i :: 0 <= i < |g| ==> |g[i]| == Width
  }

  /** Every cell of a well-shaped grid is 0 (dead) or 1 (alive). */
  predicate IsBinary(g: Grid) {
    IsGrid(g) && forall i, j :: 0 <= i < Height && 0 <= j < Width ==> 0 <= g[i][j] <= 1
  }

  /** The cell at row `i + di`, column `j + dj`, both wrapped around the torus. */
  function Wrapped(g: Grid, i: int, j: int, di: int, dj: int): int
    requires IsGrid(g)
  {
    g[(i + di) % Height][(j + dj) % Width]
  }

  /** One term of the neighbour count: the centre offset contributes nothing. */
  function Term(g: Grid, i: int, j: int, di: int, dj: int): int
    requires IsGrid(g)
  {
    if di == 0 && dj == 0 then 0 else Wrapped(g, i, j, di, dj)
  }

  /** The terms of row offset `di` for the first `n` column offsets -1, 0, 1. */
  function RowSum(g: Grid, i: int, j: int, di: int, n: nat): int
    requires IsGrid(g) && n <= 3
  {
    if n == 0 then 0 else RowSum(g, i, j, di, n - 1) + Term(g, i, j, di, n - 2)
  }

  /** The terms of the first `m` row offsets -1, 0, 1, each over all three column offsets. */
  function OffsetSum(g: Grid, i: int, j: int, m: nat): int
    requires IsGrid(g) && m <= 3
  {
    if m == 0 then 0 else OffsetSum(g, i, j, m - 1) + RowSum(g, i, j, m - 2, 3)
  }

  /** The live-neighbour count of cell (i, j), in the order the source's loops visit offsets. */
  function NeighbourCount(g: Grid, i: int, j: int): int
    requires IsGrid(g)
  {
    OffsetSum(g, i, j, 3)
  }

  /** The eight wrapped neighbours of (i, j), written out; the cell itself is not among them. */
  function EightNeighbours(g: Grid, i: int, j: int): int
    requires IsGrid(g) && 0 <= i < Height && 0 <= j < Width
  {
    var up, down := (i - 1) % Height, (i + 1) % Height;
    var left, right := (j - 1) % Width, (j + 1) % Width;
    g[up][left] + g[up][j] + g[up][right] +
    g[i][left] + g[i][right] +
    g[down][left] + g[down][j] + g[down][right]
  }

  lemma NeighbourCountIsEightNeighbours(g: Grid, i: int, j: int)
    requires IsGrid(g) && 0 <= i < Height && 0 <= j < Width
    ensures NeighbourCount(g, i, j) == EightNeighbours(g, i, j)
  {
    assert (i + 0) % Height == i && (j + 0) % Width == j;
    forall di | -1 <= di <= 1
      ensures RowSum(g, i, j, di, 3) == Term(g, i, j, di, -1) + Term(g, i, j, di, 0) + Term(g, i, j, di, 1)
    {
      assert RowSum(g, i, j, di, 1) == Term(g, i, j, di, -1);
    }
    assert OffsetSum(g, i, j, 1) == RowSum(g, i, j, -1, 3);
    assert OffsetSum(g, i, j, 2) == OffsetSum(g, i, j, 1) + RowSum(g, i, j, 0, 3);
    assert OffsetSum(g, i, j, 3) == OffsetSum(g, i, j, 2) + RowSum(g, i, j, 1, 3);
  }

  lemma NeighbourCountRange(g: Grid, i: int, j: int)
    requires IsBinary(g) && 0 <= i < Height && 0 <= j < Width
    ensures 0 <= NeighbourCount(g, i, j) <= 8
  {
    NeighbourCountIsEightNeighbours(g, i, j);
  }

  /** B3/S23: a live cell survives with 2 or 3 neighbours, a dead one is born with exactly 3. */
  function NextCell(cell: int, count: int): int {
    if cell == 1 then
      if count == 2 || count == 3 then 1 else 0
    else
      if count == 3 then 1 else 0
  }

  /** The grid after one generation. */
  function LifeStep(g: Grid): Grid
    requires IsGrid(g)
  {
    seq(Height, i requires 0 <= i < Height =>
      seq(Width, j requires 0 <= j < Width => NextCell(g[i][j], NeighbourCount(g, i, j))))
  }

  /** A step yields a 32 x 32 grid of zeros and ones, whatever the input cells hold. */
  lemma LifeStepIsBinary(g: Grid)
    requires IsGrid(g)
    ensures IsBinary(LifeStep(g))
  {
  }

  /** The rule, both directions: a cell is alive next iff it survives or is born. */
  lemma LifeStepRule(g: Grid, i: int, j: int)
    requires IsBinary(g) && 0 <= i < Height && 0 <= j < Width
    ensures var n := EightNeighbours(g, i, j);
      (g[i][j] == 1 ==> (LifeStep(g)[i][j] == 1 <==> n == 2 || n == 3)) &&
      (g[i][j] == 0 ==> (LifeStep(g)[i][j] == 1 <==> n == 3))
  {
    NeighbourCountIsEightNeighbours(g, i, j);
  }

  /** The inner two loops: sum the wrapped neighbours of (i, j), skipping the centre. */
  method CountNeighbours(g: Grid, i: int, j: int) returns (count: int)
    requires IsGrid(g)
    ensures count == NeighbourCount(g, i, j)
  {
    count := 0;
    var a := 0;
    while a < 3
      invariant 0 <= a <= 3
      invariant count == OffsetSum(g, i, j, a)
    {
      var di := a - 1;
      var b := 0;
      while b < 3
        invariant 0 <= b <= 3
        invariant count == OffsetSum(g, i, j, a) + RowSum(g, i, j, di, b)
      {
        var dj := b - 1;
        if !(di == 0 && dj == 0) {
          var ni := (i + di) % Height;
          var nj := (j + dj) % Width;
          count := count + g[ni][nj];
        }
        b := b + 1;
      }
      a := a + 1;
    }
  }

  /** `update_game_of_life`: fill a fresh all-zero grid row by row with the next generation. */
  method Step(g: Grid) returns (next: Grid)
    requires IsGrid(g)
    ensures next == LifeStep(g)
  {
    var zeroRow := seq(Width, _ => 0);
    next := seq(Height, _ => zeroRow);
    var i := 0;
    while i < Height
      invariant 0 <= i <= Height
      invariant IsGrid(next)
      invariant forall r :: 0 <= r < i ==> next[r] == LifeStep(g)[r]
      invariant forall r :: i <= r < Height ==> next[r] == zeroRow
    {
      var j := 0;
      while j < Width
        invariant 0 <= j <= Width
        invariant IsGrid(next)
        invariant forall r :: 0 <= r < i ==> next[r] == LifeStep(g)[r]
        invariant forall r :: i < r < Height ==> next[r] == zeroRow
        invariant forall c :: 0 <= c < j ==> next[i][c] == LifeStep(g)[i][c]
        invariant forall c :: j <= c < Width ==> next[i][c] == 0
      {
        var count := CountNeighbours(g, i, j);
        var cell := if g[i][j] == 1 then
            (if count == 2 || count == 3 then 1 else 0)
          else
            (if count == 3 then 1 else 0);
        next := next[i := next[i][j := cell]];
        j := j + 1;
      }
      assert next[i] == LifeStep(g)[i];
      i := i + 1;
    }
  }
}
