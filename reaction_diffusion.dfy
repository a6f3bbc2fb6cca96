/**
 * The Gray-Scott reaction-diffusion step of the enhanced VJ demo on a pair of
 * 32 x 32 concentration grids U and V.  Both grids are copied, only the
 * interior cells (rows and columns 1 to 30) are recomputed from the old
 * grids' five-point stencil, and the border is carried over unchanged.
 */
module ReactionDiffusion {

  const Size: int := 32

  const Du: real := 0.16
  const Dv: real := 0.08
  const Feed: real := 0.035
  const Kill: real := 0.065
  const Dt: real := 0.2

  type Field = seq<seq<real>>

  predicate IsField(f: Field) {
    |f| == Size && forall i :: 0 <= i < |f| ==> |f[i]| == Size
  }

  predicate Interior(i: int, j: int) {
    1 <= i < Size - 1 && 1 <= j < Size - 1
  }

  function Laplacian(f: Field, i: int, j: int): real
    requires IsField(f) && Interior(i, j)
  {
    f[i + 1][j] + f[i - 1][j] + f[i][j + 1] + f[i][j - 1] - 4.0 * f[i][j]
  }

  /** The new U of an interior cell. */
  function CellU(u: Field, v: Field, i: int, j: int): real
    requires IsField(u) && IsField(v) && Interior(i, j)
  {
    u[i][j] + (Du * Laplacian(u, i, j) - u[i][j] * v[i][j] * v[i][j] + Feed * (1.0 - u[i][j])) * Dt
  }

  /** The new V of an interior cell. */
  function CellV(u: Field, v: Field, i: int, j: int): real
    requires IsField(u) && IsField(v) && Interior(i, j)
  {
    v[i][j] + (Dv * Laplacian(v, i, j) + u[i][j] * v[i][j] * v[i][j] - (Feed + Kill) * v[i][j]) * Dt
  }

  function StepU(u: Field, v: Field): Field
    requires IsField(u) && IsField(v)
  {
    seq(Size, i requires 0 <= i < Size =>
      seq(Size, j requires 0 <= j < Size => if Interior(i, j) then CellU(u, v, i, j) else u[i][j]))
  }

  function StepV(u: Field, v: Field): Field
    requires IsField(u) && IsField(v)
  {
    seq(Size, i requires 0 <= i < Size =>
      seq(Size, j requires 0 <= j < Size => if Interior(i, j) then CellV(u, v, i, j) else v[i][j]))
  }

  /** The step keeps both grids 32 x 32 and leaves every border cell as it was. */
  lemma BorderUnchanged(u: Field, v: Field, i: int, j: int)
    requires IsField(u) && IsField(v)
    requires 0 <= i < Size && 0 <= j < Size && (i == 0 || i == Size - 1 || j == 0 || j == Size - 1)
    ensures IsField(StepU(u, v)) && IsField(StepV(u, v))
    ensures StepU(u, v)[i][j] == u[i][j] && StepV(u, v)[i][j] == v[i][j]
  {
  }

  /** Two pairs of grids that agree on the stencil of an interior cell give that cell the same new values. */
  lemma StepIsLocal(u: Field, v: Field, u': Field, v': Field, i: int, j: int)
    requires IsField(u) && IsField(v) && IsField(u') && IsField(v') && Interior(i, j)
    requires forall p, q :: (p, q) in Stencil(i, j) ==> u[p][q] == u'[p][q] && v[p][q] == v'[p][q]
    ensures StepU(u, v)[i][j] == StepU(u', v')[i][j]
    ensures StepV(u, v)[i][j] == StepV(u', v')[i][j]
  {
    assert (i, j) in Stencil(i, j) && (i - 1, j) in Stencil(i, j) && (i + 1, j) in Stencil(i, j);
    assert (i, j - 1) in Stencil(i, j) && (i, j + 1) in Stencil(i, j);
  }

  /** The cell and its four orthogonal neighbours. */
  function Stencil(i: int, j: int): set<(int, int)> {
    {(i, j), (i - 1, j), (i + 1, j), (i, j - 1), (i, j + 1)}
  }

  /** The inner loop of `update_reaction_diffusion`: the interior cells of row `i` of the copies, recomputed left to right. */
  method StepRow(u: Field, v: Field, i: int) returns (ru: seq<real>, rv: seq<real>)
    requires IsField(u) && IsField(v) && 1 <= i < Size - 1
    ensures ru == StepU(u, v)[i] && rv == StepV(u, v)[i]
  {
    ru, rv := u[i], v[i];
    var j := 1;
    while j < Size - 1
      invariant 1 <= j <= Size - 1 && |ru| == Size && |rv| == Size
      invariant forall c :: 0 <= c < Size ==> (c < j ==> ru[c] == StepU(u, v)[i][c] && rv[c] == StepV(u, v)[i][c])
      invariant forall c :: 0 <= c < Size ==> (c >= j ==> ru[c] == u[i][c] && rv[c] == v[i][c])
    {
      var lapU := u[i + 1][j] + u[i - 1][j] + u[i][j + 1] + u[i][j - 1] - 4.0 * u[i][j];
      var lapV := v[i + 1][j] + v[i - 1][j] + v[i][j + 1] + v[i][j - 1] - 4.0 * v[i][j];
      var nu := u[i][j] + (Du * lapU - u[i][j] * v[i][j] * v[i][j] + Feed * (1.0 - u[i][j])) * Dt;
      var nv := v[i][j] + (Dv * lapV + u[i][j] * v[i][j] * v[i][j] - (Feed + Kill) * v[i][j]) * Dt;
      ru, rv := ru[j := nu], rv[j := nv];
      j := j + 1;
    }
    assert ru[Size - 1] == StepU(u, v)[i][Size - 1] && rv[Size - 1] == StepV(u, v)[i][Size - 1];
  }

  /** `update_reaction_diffusion`: copy both grids, then recompute the interior in row-major order. */
  method Step(u: Field, v: Field) returns (u': Field, v': Field)
    requires IsField(u) && IsField(v)
    ensures u' == StepU(u, v) && v' == StepV(u, v)
  {
    u', v' := u, v;
    var i := 1;
    while i < Size - 1
      invariant 1 <= i <= Size - 1
      invariant IsField(u') && IsField(v')
      invariant forall r :: 0 <= r < Size ==> (r < i ==> u'[r] == StepU(u, v)[r] && v'[r] == StepV(u, v)[r])
      invariant forall r :: 0 <= r < Size ==> (r >= i ==> u'[r] == u[r] && v'[r] == v[r])
    {
      var ru, rv := StepRow(u, v, i);
      u', v' := u'[i := ru], v'[i := rv];
      i := i + 1;
    }
    assert u'[Size - 1] == StepU(u, v)[Size - 1];
    assert v'[Size - 1] == StepV(u, v)[Size - 1];
  }
}
