/** The constant-velocity Kalman filter over [cx, cy, a, h, vx, vy, va, vh], as written: full
    8x8 matrices. `numpy.linalg.solve` is outside the repository and enters as a function value. */
module Kalman {

  type Vec = seq<real>
  type Mat = seq<seq<real>>

  ghost predicate IsMat(m: Mat, r: nat, c: nat) {
    |m| == r && forall i :: 0 <= i < r ==> |m[i]| == c
  }

  datatype State = State(mean: Vec, cov: Mat)

  ghost predicate Shaped(s: State) {
    |s.mean| == 8 && IsMat(s.cov, 8, 8)
  }

  /** A state of the right shape. */
  type Filter = s: State | Shaped(s)
    witness State(seq(8, _ => 0.0), seq(8, _ => seq(8, _ => 0.0)))

  // Products are named so that the prover keeps the sign of a square as a fact about a term.
  function Times(x: real, y: real): real { x * y }
  function Sq(x: real): real { Times(x, x) }
  function Over(x: real, y: real): real requires y != 0.0 { x / y }

  lemma SameSignProduct(x: real, y: real)
    requires (x > 0.0 && y > 0.0) || (x < 0.0 && y < 0.0)
    ensures Times(x, y) > 0.0
  {}

  lemma SquareIsPositive(x: real)
    requires x != 0.0
    ensures Sq(x) > 0.0
  {
    SameSignProduct(x, x);
  }

  lemma SquareIsNonNegative(x: real)
    ensures Sq(x) >= 0.0
  {
    if x != 0.0 {
      SquareIsPositive(x);
    }
  }

  // ---- matrix arithmetic ----------------------------------------------------

  /** Row `u` times column `j` of `b`, over the first `n` terms. */
  function DotCol(u: Vec, b: Mat, j: nat, n: nat): real
    requires n <= |u| && n <= |b| && forall k :: 0 <= k < n ==> j < |b[k]|
  {
    if n == 0 then 0.0 else DotCol(u, b, j, n - 1) + Times(u[n - 1], b[n - 1][j])
  }

  function Mul(a: Mat, b: Mat, r: nat, n: nat, c: nat): (m: Mat)
    requires IsMat(a, r, n) && IsMat(b, n, c)
    ensures IsMat(m, r, c)
    ensures forall i, j :: 0 <= i < r && 0 <= j < c ==> m[i][j] == DotCol(a[i], b, j, n)
  {
    seq(r, i requires 0 <= i < r => seq(c, j requires 0 <= j < c => DotCol(a[i], b, j, n)))
  }

  function Transpose(a: Mat, r: nat, c: nat): (m: Mat)
    requires IsMat(a, r, c)
    ensures IsMat(m, c, r)
    ensures forall i, j :: 0 <= i < c && 0 <= j < r ==> m[i][j] == a[j][i]
  {
    seq(c, i requires 0 <= i < c => seq(r, j requires 0 <= j < r => a[j][i]))
  }

  function Plus(a: Mat, b: Mat, r: nat, c: nat): (m: Mat)
    requires IsMat(a, r, c) && IsMat(b, r, c)
    ensures IsMat(m, r, c)
    ensures forall i, j :: 0 <= i < r && 0 <= j < c ==> m[i][j] == a[i][j] + b[i][j]
  {
    seq(r, i requires 0 <= i < r => seq(c, j requires 0 <= j < c => a[i][j] + b[i][j]))
  }

  function Minus(a: Mat, b: Mat, r: nat, c: nat): (m: Mat)
    requires IsMat(a, r, c) && IsMat(b, r, c)
    ensures IsMat(m, r, c)
    ensures forall i, j :: 0 <= i < r && 0 <= j < c ==> m[i][j] == a[i][j] - b[i][j]
  {
    seq(r, i requires 0 <= i < r => seq(c, j requires 0 <= j < c => a[i][j] - b[i][j]))
  }

  /** A vector as a one-column matrix. */
  function Column(v: Vec): (m: Mat)
    ensures IsMat(m, |v|, 1)
    ensures forall i :: 0 <= i < |v| ==> m[i][0] == v[i]
  {
    seq(|v|, i requires 0 <= i < |v| => [v[i]])
  }

  function DiagOfSquares(std: Vec): (m: Mat)
    ensures IsMat(m, |std|, |std|)
    ensures forall i, j :: 0 <= i < |std| && 0 <= j < |std| ==> m[i][j] == if i == j then Sq(std[i]) else 0.0
  {
    seq(|std|, i requires 0 <= i < |std| =>
      seq(|std|, j requires 0 <= j < |std| => if i == j then Sq(std[i]) else 0.0))
  }

  function Motion(): (m: Mat)
    ensures IsMat(m, 8, 8)
    ensures forall i, j :: 0 <= i < 8 && 0 <= j < 8 ==> m[i][j] == if j == i || j == i + 4 then 1.0 else 0.0
  {
    seq(8, i => seq(8, j => if j == i || j == i + 4 then 1.0 else 0.0))
  }

  function Observation(): (m: Mat)
    ensures IsMat(m, 4, 8)
    ensures forall i, j :: 0 <= i < 4 && 0 <= j < 8 ==> m[i][j] == if j == i then 1.0 else 0.0
  {
    seq(4, i => seq(8, j => if j == i then 1.0 else 0.0))
  }

  // ---- the filter -----------------------------------------------------------

  const WEIGHT_POSITION := 1.0 / 20.0
  const WEIGHT_VELOCITY := 1.0 / 160.0

  function Initiate(z: Vec): (s: State)
    requires |z| == 4
    ensures Shaped(s)
  {
    var p := 2.0 * WEIGHT_POSITION * z[3];
    var v := 10.0 * WEIGHT_VELOCITY * z[3];
    State(z + [0.0, 0.0, 0.0, 0.0], DiagOfSquares([p, p, 0.01, p, v, v, 0.00001, v]))
  }

  function PredictStd(height: real): (std: Vec)
    ensures |std| == 8
  {
    var p := WEIGHT_POSITION * height;
    var v := WEIGHT_VELOCITY * height;
    [p, p, 0.01, p, v, v, 0.00001, v]
  }

  function ProjectStd(height: real): (std: Vec)
    ensures |std| == 4
  {
    var p := WEIGHT_POSITION * height;
    [p, p, 0.1, p]
  }

  function Predict(s: State): (t: State)
    requires Shaped(s)
    ensures Shaped(t)
  {
    var noise := DiagOfSquares(PredictStd(s.mean[3]));
    var moved := Mul(Motion(), Column(s.mean), 8, 8, 1);
    var spread := Mul(Mul(Motion(), s.cov, 8, 8, 8), Transpose(Motion(), 8, 8), 8, 8, 8);
    State(seq(8, i requires 0 <= i < 8 => moved[i][0]), Plus(spread, noise, 8, 8))
  }

  function Project(s: State): (r: (Vec, Mat))
    requires Shaped(s)
    ensures |r.0| == 4 && IsMat(r.1, 4, 4)
  {
    var noise := DiagOfSquares(ProjectStd(s.mean[3]));
    var seen := Mul(Observation(), Column(s.mean), 4, 8, 1);
    var spread := Mul(Mul(Observation(), s.cov, 4, 8, 8), Transpose(Observation(), 4, 8), 4, 8, 4);
    (seq(4, i requires 0 <= i < 4 => seen[i][0]), Plus(spread, noise, 4, 4))
  }

  /** The right-hand side handed to the solver. */
  function CrossCovariance(s: State): (b: Mat)
    requires Shaped(s)
    ensures IsMat(b, 4, 8)
  {
    Transpose(Mul(s.cov, Transpose(Observation(), 4, 8), 8, 8, 4), 8, 4)
  }

  /** `x = numpy.linalg.solve(a, b)` for a 4x4 `a` and a 4x8 `b`. */
  type LinearSolver = (Mat, Mat) -> Mat

  function Identity4(): (m: Mat)
    ensures IsMat(m, 4, 4)
    ensures forall i, j :: 0 <= i < 4 && 0 <= j < 4 ==> m[i][j] == if i == j then 1.0 else 0.0
  {
    seq(4, i => seq(4, j => if i == j then 1.0 else 0.0))
  }

  ghost predicate Inverse4(a: Mat, t: Mat) {
    IsMat(a, 4, 4) && IsMat(t, 4, 4) && Mul(a, t, 4, 4, 4) == Identity4()
  }

  ghost predicate Solves(a: Mat, x: Mat, b: Mat)
    requires IsMat(a, 4, 4) && IsMat(b, 4, 8)
  {
    IsMat(x, 4, 8) && Mul(a, x, 4, 4, 8) == b
  }

  /** The solver's contract: an invertible system is solved; the shape is always right. */
  ghost predicate SolverOk(solve: LinearSolver) {
    forall a: Mat, b: Mat :: IsMat(a, 4, 4) && IsMat(b, 4, 8) ==>
      IsMat(solve(a, b), 4, 8) && ((exists t :: Inverse4(a, t)) ==> Solves(a, solve(a, b), b))
  }

  function Difference(z: Vec, seen: Vec): (d: Vec)
    requires |z| == 4 && |seen| == 4
    ensures |d| == 4 && forall i :: 0 <= i < 4 ==> d[i] == z[i] - seen[i]
  {
    seq(4, i requires 0 <= i < 4 => z[i] - seen[i])
  }

  /** gain * spread * gain^T */
  function Shrink(gain: Mat, spread: Mat): (m: Mat)
    requires IsMat(gain, 8, 4) && IsMat(spread, 4, 4)
    ensures IsMat(m, 8, 8)
  {
    Mul(Mul(gain, spread, 8, 4, 4), Transpose(gain, 8, 4), 8, 4, 8)
  }

  /** The measurement update for a given gain. */
  function Correct(s: State, z: Vec, gain: Mat): (t: State)
    requires Shaped(s) && |z| == 4 && IsMat(gain, 8, 4)
    ensures Shaped(t)
  {
    var (seen, spread) := Project(s);
    var shift := Mul([Difference(z, seen)], Transpose(gain, 8, 4), 1, 4, 8);
    State(seq(8, i requires 0 <= i < 8 => s.mean[i] + shift[0][i]), Minus(s.cov, Shrink(gain, spread), 8, 8))
  }

  function Update(s: State, z: Vec, solve: LinearSolver): (t: State)
    requires Shaped(s) && |z| == 4 && SolverOk(solve)
    ensures Shaped(t)
  {
    var gainT := solve(Project(s).1, CrossCovariance(s));
    assert IsMat(gainT, 4, 8);
    Correct(s, z, Transpose(gainT, 4, 8))
  }

  /** `mean[7] = 0` for a track that is coasting. */
  function FreezeHeightVelocity(s: State): (t: State)
    requires Shaped(s)
    ensures Shaped(t)
  {
    s.(mean := s.mean[7 := 0.0])
  }

  // ---- sparse products ------------------------------------------------------

  lemma {:induction false} DotAt(u: Vec, b: Mat, j: nat, n: nat, k: nat)
    requires n <= |u| && n <= |b| && forall i :: 0 <= i < n ==> j < |b[i]|
    requires forall i :: 0 <= i < n && i != k ==> u[i] == 0.0 || b[i][j] == 0.0
    ensures DotCol(u, b, j, n) == if k < n then Times(u[k], b[k][j]) else 0.0
  {
    if n > 0 {
      DotAt(u, b, j, n - 1, k);
    }
  }

  lemma {:induction false} DotAt2(u: Vec, b: Mat, j: nat, n: nat, k: nat, l: nat)
    requires n <= |u| && n <= |b| && forall i :: 0 <= i < n ==> j < |b[i]|
    requires k < l
    requires forall i :: 0 <= i < n && i != k && i != l ==> u[i] == 0.0 || b[i][j] == 0.0
    ensures DotCol(u, b, j, n)
         == (if k < n then Times(u[k], b[k][j]) else 0.0) + (if l < n then Times(u[l], b[l][j]) else 0.0)
  {
    if n > 0 {
      DotAt2(u, b, j, n - 1, k, l);
    }
  }

  /** Multiplying by the motion matrix on the left adds row i+4 to row i. */
  lemma MotionLeft(b: Mat, c: nat)
    requires IsMat(b, 8, c)
    ensures var m := Mul(Motion(), b, 8, 8, c);
      forall i, j :: 0 <= i < 8 && 0 <= j < c ==> m[i][j] == b[i][j] + if i < 4 then b[i + 4][j] else 0.0
  {
    forall i, j | 0 <= i < 8 && 0 <= j < c
      ensures DotCol(Motion()[i], b, j, 8) == b[i][j] + if i < 4 then b[i + 4][j] else 0.0
    {
      DotAt2(Motion()[i], b, j, 8, i, i + 4);
    }
  }

  lemma MotionRight(a: Mat)
    requires IsMat(a, 8, 8)
    ensures var m := Mul(a, Transpose(Motion(), 8, 8), 8, 8, 8);
      forall i, j :: 0 <= i < 8 && 0 <= j < 8 ==> m[i][j] == a[i][j] + if j < 4 then a[i][j + 4] else 0.0
  {
    var f := Transpose(Motion(), 8, 8);
    forall i, j | 0 <= i < 8 && 0 <= j < 8
      ensures DotCol(a[i], f, j, 8) == a[i][j] + if j < 4 then a[i][j + 4] else 0.0
    {
      DotAt2(a[i], f, j, 8, j, j + 4);
    }
  }

  lemma ObservationLeft(b: Mat, c: nat)
    requires IsMat(b, 8, c)
    ensures var m := Mul(Observation(), b, 4, 8, c);
      forall i, j :: 0 <= i < 4 && 0 <= j < c ==> m[i][j] == b[i][j]
  {
    forall i, j | 0 <= i < 4 && 0 <= j < c ensures DotCol(Observation()[i], b, j, 8) == b[i][j] {
      DotAt(Observation()[i], b, j, 8, i);
    }
  }

  lemma ObservationRight(a: Mat, r: nat)
    requires IsMat(a, r, 8)
    ensures var m := Mul(a, Transpose(Observation(), 4, 8), r, 8, 4);
      forall i, j :: 0 <= i < r && 0 <= j < 4 ==> m[i][j] == a[i][j]
  {
    var h := Transpose(Observation(), 4, 8);
    forall i, j | 0 <= i < r && 0 <= j < 4 ensures DotCol(a[i], h, j, 8) == a[i][j] {
      DotAt(a[i], h, j, 8, j);
    }
  }

  // ---- decoupling into four (position, velocity) blocks ---------------------

  /** Symmetric, and no covariance between different coordinates. */
  ghost predicate Decoupled(m: Mat) {
    && IsMat(m, 8, 8)
    && (forall i, j :: 0 <= i < 8 && 0 <= j < 8 && i % 4 != j % 4 ==> m[i][j] == 0.0)
    && (forall i :: 0 <= i < 4 ==> m[i][i + 4] == m[i + 4][i])
  }

  datatype Block = Block(p: real, q: real, v: real)

  function BlockAt(m: Mat, i: nat): Block
    requires IsMat(m, 8, 8) && i < 4
  {
    Block(m[i][i], m[i][i + 4], m[i + 4][i + 4])
  }

  ghost predicate Definite(b: Block) {
    b.p > 0.0 && b.v > 0.0 && Times(b.p, b.v) > Sq(b.q)
  }

  /** Position known exactly, velocity still uncertain. */
  ghost predicate Pinned(b: Block) {
    b.p == 0.0 && b.q == 0.0 && b.v > 0.0
  }

  lemma InitiateBlocks(z: Vec)
    requires |z| == 4 && z[3] > 0.0
    ensures Shaped(Initiate(z)) && Decoupled(Initiate(z).cov)
    ensures forall i :: 0 <= i < 4 ==> Initiate(z).mean[i] == z[i]
    ensures forall i :: 0 <= i < 4 ==> Definite(BlockAt(Initiate(z).cov, i))
  {
    var p, v := 2.0 * WEIGHT_POSITION * z[3], 10.0 * WEIGHT_VELOCITY * z[3];
    forall i | 0 <= i < 4 ensures Definite(BlockAt(Initiate(z).cov, i)) {
      SquaresAreDefinite(if i == 2 then 0.01 else p, if i == 2 then 0.00001 else v);
    }
  }

  lemma SquaresAreDefinite(x: real, y: real)
    requires x != 0.0 && y != 0.0
    ensures Definite(Block(Sq(x), 0.0, Sq(y)))
  {
    SquareIsPositive(x);
    SquareIsPositive(y);
    SameSignProduct(Sq(x), Sq(y));
  }

  /** What a prediction does to one entry of the covariance. */
  lemma PredictEntry(s: State, i: nat, j: nat)
    requires Shaped(s) && i < 8 && j < 8
    ensures Predict(s).cov[i][j]
         == (s.cov[i][j] + (if i < 4 then s.cov[i + 4][j] else 0.0))
          + (if j < 4 then s.cov[i][j + 4] + (if i < 4 then s.cov[i + 4][j + 4] else 0.0) else 0.0)
          + if i != j then 0.0 else Sq(PredictStd(s.mean[3])[i])
  {
    hide DotCol, Times;
    var left := Mul(Motion(), s.cov, 8, 8, 8);
    var spread := Mul(left, Transpose(Motion(), 8, 8), 8, 8, 8);
    MotionLeft(s.cov, 8);
    MotionRight(left);
    assert spread[i][j] == left[i][j] + if j < 4 then left[i][j + 4] else 0.0;
    assert left[i][j] == s.cov[i][j] + if i < 4 then s.cov[i + 4][j] else 0.0;
    assert DiagOfSquares(PredictStd(s.mean[3]))[i][j] == if i == j then Sq(PredictStd(s.mean[3])[i]) else 0.0;
    assert Predict(s).cov[i][j] == spread[i][j] + DiagOfSquares(PredictStd(s.mean[3]))[i][j];
  }

  /** The full matrix prediction keeps the blocks apart and acts on each one by itself. */
  lemma PredictBlocks(s: State)
    requires Shaped(s) && Decoupled(s.cov)
    ensures Decoupled(Predict(s).cov)
    ensures forall i :: 0 <= i < 4 ==> Predict(s).mean[i] == s.mean[i] + s.mean[i + 4]
    ensures forall i :: 4 <= i < 8 ==> Predict(s).mean[i] == s.mean[i]
    ensures forall i :: 0 <= i < 4 ==>
      var b := BlockAt(s.cov, i);
      BlockAt(Predict(s).cov, i)
      == Block(b.p + 2.0 * b.q + b.v + Sq(PredictStd(s.mean[3])[i]),
               b.q + b.v,
               b.v + Sq(PredictStd(s.mean[3])[i + 4]))
  {
    MotionLeft(Column(s.mean), 1);
    var t := Predict(s).cov;
    forall i, j | 0 <= i < 8 && 0 <= j < 8 && i % 4 != j % 4 ensures t[i][j] == 0.0 {
      PredictEntry(s, i, j);
    }
    forall i | 0 <= i < 4
      ensures t[i][i + 4] == t[i + 4][i]
      ensures var b := BlockAt(s.cov, i);
        BlockAt(t, i) == Block(b.p + 2.0 * b.q + b.v + Sq(PredictStd(s.mean[3])[i]),
                               b.q + b.v, b.v + Sq(PredictStd(s.mean[3])[i + 4]))
    {
      PredictEntry(s, i, i);
      PredictEntry(s, i, i + 4);
      PredictEntry(s, i + 4, i);
      PredictEntry(s, i + 4, i + 4);
    }
  }

  /** The innovation covariance is the position part of each block plus the measurement noise. */
  lemma ProjectBlocks(s: State)
    requires Shaped(s) && Decoupled(s.cov)
    ensures forall i :: 0 <= i < 4 ==> Project(s).0[i] == s.mean[i]
    ensures forall i, j :: 0 <= i < 4 && 0 <= j < 4 ==>
      Project(s).1[i][j] == if i == j then s.cov[i][i] + Sq(ProjectStd(s.mean[3])[i]) else 0.0
    ensures forall i, j :: 0 <= i < 4 && 0 <= j < 8 ==> CrossCovariance(s)[i][j] == s.cov[j][i]
  {
    ObservationLeft(Column(s.mean), 1);
    ObservationLeft(s.cov, 8);
    ObservationRight(Mul(Observation(), s.cov, 4, 8, 8), 4);
    ObservationRight(s.cov, 8);
  }

  // ---- the measurement update, block by block -------------------------------

  /** The innovation variance of coordinate `i`. */
  function Innovation(s: State, i: nat): real
    requires Shaped(s) && i < 4
  {
    s.cov[i][i] + Sq(ProjectStd(s.mean[3])[i])
  }

  ghost predicate Observable(s: State)
    requires Shaped(s)
  {
    forall i :: 0 <= i < 4 ==> Innovation(s, i) > 0.0
  }

  /** `x` solves a diagonal system: row by row, x times the diagonal entry. */
  ghost predicate ScaledBy(x: Mat, a: Mat, b: Mat)
    requires IsMat(a, 4, 4) && IsMat(b, 4, 8)
  {
    IsMat(x, 4, 8) &&
    forall i, j :: 0 <= i < 4 && 0 <= j < 8 ==> Times(a[i][i], x[i][j]) == b[i][j]
  }

  ghost predicate Diagonal(a: Mat) {
    IsMat(a, 4, 4) && forall i, j :: 0 <= i < 4 && 0 <= j < 4 && i != j ==> a[i][j] == 0.0
  }

  function Reciprocals(a: Mat): (t: Mat)
    requires IsMat(a, 4, 4)
    ensures IsMat(t, 4, 4)
    ensures forall i, j :: 0 <= i < 4 && 0 <= j < 4 ==>
      t[i][j] == if i == j && a[i][i] != 0.0 then 1.0 / a[i][i] else 0.0
  {
    seq(4, i requires 0 <= i < 4 =>
      seq(4, j requires 0 <= j < 4 => if i == j && a[i][i] != 0.0 then 1.0 / a[i][i] else 0.0))
  }

  lemma DiagonalInverse(a: Mat)
    requires Diagonal(a) && forall i :: 0 <= i < 4 ==> a[i][i] > 0.0
    ensures Inverse4(a, Reciprocals(a))
  {
    var t := Reciprocals(a);
    var m := Mul(a, t, 4, 4, 4);
    forall i, j | 0 <= i < 4 && 0 <= j < 4 ensures m[i][j] == Identity4()[i][j] {
      DotAt(a[i], t, j, 4, i);
      if i == j {
        TimesReciprocal(a[i][i]);
      }
    }
    MatEqual(m, Identity4(), 4, 4);
  }

  lemma TimesReciprocal(x: real)
    requires x != 0.0
    ensures Times(x, 1.0 / x) == 1.0
  {}

  lemma MatEqual(a: Mat, b: Mat, r: nat, c: nat)
    requires IsMat(a, r, c) && IsMat(b, r, c)
    requires forall i, j :: 0 <= i < r && 0 <= j < c ==> a[i][j] == b[i][j]
    ensures a == b
  {
    forall i | 0 <= i < r ensures a[i] == b[i] {}
  }

  lemma SolveDiagonal(a: Mat, b: Mat, solve: LinearSolver)
    requires SolverOk(solve) && IsMat(b, 4, 8)
    requires Diagonal(a) && forall i :: 0 <= i < 4 ==> a[i][i] > 0.0
    ensures ScaledBy(solve(a, b), a, b)
  {
    hide DotCol, Times, Over;
    DiagonalInverse(a);
    var x := solve(a, b);
    assert Solves(a, x, b);
    forall i, j | 0 <= i < 4 && 0 <= j < 8 ensures Times(a[i][i], x[i][j]) == b[i][j] {
      DotAt(a[i], x, j, 4, i);
      assert Mul(a, x, 4, 4, 8)[i][j] == b[i][j];
    }
  }

  /** A decoupled covariance with positive innovation variances gives the solver an
      invertible system; whatever it returns is the covariance divided by those variances. */
  lemma GainOfSolver(s: State, solve: LinearSolver) returns (gain: Mat)
    requires Shaped(s) && Decoupled(s.cov) && Observable(s) && SolverOk(solve)
    ensures exists t :: Inverse4(Project(s).1, t)
    ensures IsMat(gain, 8, 4) && forall z: Vec :: |z| == 4 ==> Update(s, z, solve) == Correct(s, z, gain)
    ensures IsGain(s, gain)
  {
    hide DotCol, Times, Over, Mul, Project, CrossCovariance;
    ProjectBlocks(s);
    var a, b := Project(s).1, CrossCovariance(s);
    assert forall i :: 0 <= i < 4 ==> a[i][i] == Innovation(s, i);
    DiagonalInverse(a);
    SolveDiagonal(a, b, solve);
    var x := solve(a, b);
    gain := Transpose(x, 4, 8);
    forall i, j | 0 <= i < 4 && 0 <= j < 8 ensures gain[j][i] == Over(s.cov[j][i], Innovation(s, i)) {
      assert Times(a[i][i], x[i][j]) == b[i][j];
      Quotient(Innovation(s, i), x[i][j], s.cov[j][i]);
    }
  }

  lemma Quotient(x: real, y: real, z: real)
    requires x != 0.0 && Times(x, y) == z
    ensures y == Over(z, x)
  {}

  lemma QuotientTimes(z: real, x: real)
    requires x != 0.0
    ensures Times(Over(z, x), x) == z
  {}

  ghost predicate IsGain(s: State, gain: Mat)
    requires Shaped(s) && Observable(s)
  {
    IsMat(gain, 8, 4) &&
    forall i, j :: 0 <= i < 4 && 0 <= j < 8 ==> gain[j][i] == Over(s.cov[j][i], Innovation(s, i))
  }

  /** The gain only mixes a coordinate with itself. */
  ghost predicate BlockGain(gain: Mat) {
    IsMat(gain, 8, 4) && forall i, j :: 0 <= i < 4 && 0 <= j < 8 && i != j % 4 ==> gain[j][i] == 0.0
  }

  lemma GainIsBlockGain(s: State, gain: Mat)
    requires Shaped(s) && Decoupled(s.cov) && Observable(s) && IsGain(s, gain)
    ensures BlockGain(gain)
  {
    forall i, j | 0 <= i < 4 && 0 <= j < 8 && i != j % 4 ensures gain[j][i] == 0.0 {
      assert i % 4 == i;
      assert s.cov[j][i] == 0.0;
      ZeroOver(Innovation(s, i));
    }
  }

  lemma ZeroTimes(x: real)
    ensures Times(0.0, x) == 0.0
  {}

  lemma ZeroOver(x: real)
    requires x != 0.0
    ensures Over(0.0, x) == 0.0
  {}

  lemma ShrinkEntry(gain: Mat, spread: Mat, j: nat, k: nat)
    requires BlockGain(gain) && Diagonal(spread) && j < 8 && k < 8
    ensures Shrink(gain, spread)[j][k]
         == Times(Times(gain[j][k % 4], spread[k % 4][k % 4]), gain[k][k % 4])
  {
    var m := k % 4;
    var scaled := Mul(gain, spread, 8, 4, 4);
    DotAt(gain[j], spread, m, 4, m);
    DotAt(scaled[j], Transpose(gain, 8, 4), k, 4, m);
  }

  lemma CorrectEntry(s: State, z: Vec, gain: Mat, j: nat, k: nat)
    requires Shaped(s) && Decoupled(s.cov) && Observable(s) && |z| == 4 && IsGain(s, gain) && j < 8 && k < 8
    ensures Correct(s, z, gain).cov[j][k] == s.cov[j][k] - Times(s.cov[j][k % 4], gain[k][k % 4])
  {
    hide DotCol, Times, Over, Mul, Project;
    ProjectBlocks(s);
    GainIsBlockGain(s, gain);
    var spread := Project(s).1;
    ShrinkEntry(gain, spread, j, k);
    assert spread[k % 4][k % 4] == Innovation(s, k % 4);
    QuotientTimes(s.cov[j][k % 4], Innovation(s, k % 4));
  }

  lemma CorrectMean(s: State, z: Vec, gain: Mat, j: nat)
    requires Shaped(s) && Decoupled(s.cov) && Observable(s) && |z| == 4 && IsGain(s, gain) && j < 8
    ensures Correct(s, z, gain).mean[j] == s.mean[j] + Times(z[j % 4] - s.mean[j % 4], gain[j][j % 4])
  {
    ProjectBlocks(s);
    GainIsBlockGain(s, gain);
    DotAt(Difference(z, Project(s).0), Transpose(gain, 8, 4), j, 4, j % 4);
  }

  function CorrectedBlock(b: Block, innovation: real): Block
    requires innovation != 0.0
  {
    Block(b.p - Times(b.p, Over(b.p, innovation)),
          b.q - Times(b.p, Over(b.q, innovation)),
          b.v - Times(b.q, Over(b.q, innovation)))
  }

  /** The full matrix update keeps the blocks apart and acts on each one by itself. */
  lemma CorrectBlocks(s: State, z: Vec, gain: Mat)
    requires Shaped(s) && Decoupled(s.cov) && Observable(s) && |z| == 4 && IsGain(s, gain)
    ensures Decoupled(Correct(s, z, gain).cov)
    ensures forall i :: 0 <= i < 4 ==>
      BlockAt(Correct(s, z, gain).cov, i) == CorrectedBlock(BlockAt(s.cov, i), Innovation(s, i))
    ensures forall i :: 0 <= i < 4 ==>
      Correct(s, z, gain).mean[i] == s.mean[i] + Times(z[i] - s.mean[i], Over(s.cov[i][i], Innovation(s, i)))
  {
    hide DotCol, Times, Over, Mul, Project, Correct;
    var t := Correct(s, z, gain).cov;
    forall j, k | 0 <= j < 8 && 0 <= k < 8 && j % 4 != k % 4 ensures t[j][k] == 0.0 {
      CorrectEntry(s, z, gain, j, k);
      assert (k % 4) % 4 == k % 4;
      ZeroTimes(gain[k][k % 4]);
    }
    forall i | 0 <= i < 4
      ensures t[i][i + 4] == t[i + 4][i]
      ensures BlockAt(t, i) == CorrectedBlock(BlockAt(s.cov, i), Innovation(s, i))
      ensures Correct(s, z, gain).mean[i] == s.mean[i] + Times(z[i] - s.mean[i], Over(s.cov[i][i], Innovation(s, i)))
    {
      CorrectDiagonalBlock(s, z, gain, i);
      CorrectMean(s, z, gain, i);
    }
  }

  lemma CorrectDiagonalBlock(s: State, z: Vec, gain: Mat, i: nat)
    requires Shaped(s) && Decoupled(s.cov) && Observable(s) && |z| == 4 && IsGain(s, gain) && i < 4
    ensures Correct(s, z, gain).cov[i][i + 4] == Correct(s, z, gain).cov[i + 4][i]
    ensures BlockAt(Correct(s, z, gain).cov, i) == CorrectedBlock(BlockAt(s.cov, i), Innovation(s, i))
  {
    hide DotCol, Times, Over, Mul, Project, Correct;
    assert i % 4 == i && (i + 4) % 4 == i;
    CorrectEntry(s, z, gain, i, i);
    CorrectEntry(s, z, gain, i, i + 4);
    CorrectEntry(s, z, gain, i + 4, i);
    CorrectEntry(s, z, gain, i + 4, i + 4);
    CrossSymmetric(s.cov[i][i], s.cov[i + 4][i], Innovation(s, i));
  }

  lemma CrossSymmetric(x: real, y: real, d: real)
    requires d != 0.0
    ensures Times(x, Over(y, d)) == Times(y, Over(x, d))
  {}

  // ---- what one step keeps --------------------------------------------------

  /** Between two values, in either order. */
  predicate Between(x: real, a: real, b: real) {
    a <= x <= b || b <= x <= a
  }

  /** Every block definite; or the height is positive and the three coordinates whose noise
      scales with it are pinned. The second case is where one update at height exactly 0 leads. */
  ghost predicate Healthy(s: State) {
    && Shaped(s) && Decoupled(s.cov)
    && Definite(BlockAt(s.cov, 2))
    && (|| (forall i :: 0 <= i < 4 ==> Definite(BlockAt(s.cov, i)))
        || (s.mean[3] > 0.0 && forall i :: 0 <= i < 4 && i != 2 ==> Pinned(BlockAt(s.cov, i))))
  }

  ghost predicate AllDefinite(s: State)
    requires Shaped(s)
  {
    forall i :: 0 <= i < 4 ==> Definite(BlockAt(s.cov, i))
  }

  lemma InitiateHealthy(z: Vec)
    requires |z| == 4 && z[3] > 0.0
    ensures Healthy(Initiate(z)) && AllDefinite(Initiate(z))
  {
    InitiateBlocks(z);
  }

  lemma DefiniteMoves(b: Block, n: real, m: real)
    requires Definite(b) && n >= 0.0 && m >= 0.0
    ensures Definite(Block(b.p + 2.0 * b.q + b.v + n, b.q + b.v, b.v + m))
  {
    var sum := b.p + 2.0 * b.q + b.v;
    // (p + 2q + v) v - (q + v)^2 = p v - q^2
    assert Times(sum, b.v) == Times(b.p, b.v) + 2.0 * Times(b.q, b.v) + Times(b.v, b.v);
    assert Sq(b.q + b.v) == Sq(b.q) + 2.0 * Times(b.q, b.v) + Times(b.v, b.v);
    SquareIsNonNegative(b.q + b.v);
    PositiveFactor(sum, b.v);
    NonNegativeProduct(n, b.v);
    NonNegativeProduct(sum + n, m);
    assert Times(sum + n, b.v + m) == Times(sum, b.v) + Times(n, b.v) + Times(sum + n, m);
  }

  lemma PositiveFactor(x: real, y: real)
    requires y > 0.0 && Times(x, y) > 0.0
    ensures x > 0.0
  {}

  lemma NonNegativeProduct(x: real, y: real)
    requires x >= 0.0 && y >= 0.0
    ensures Times(x, y) >= 0.0
  {}

  lemma PinnedMoves(b: Block, n: real, m: real)
    requires Pinned(b) && n > 0.0 && m > 0.0
    ensures Definite(Block(b.p + 2.0 * b.q + b.v + n, b.q + b.v, b.v + m))
  {
    SameSignProduct(n, b.v);
    SameSignProduct(b.v + n, m);
    assert Times(b.v + n, b.v + m) == Times(b.v, b.v) + Times(n, b.v) + Times(b.v + n, m);
    assert Sq(b.v) == Times(b.v, b.v);
    SquareIsPositive(b.v);
  }

  /** A prediction restores, or keeps, a positive definite covariance. */
  lemma PredictHealthy(s: State)
    requires Healthy(s)
    ensures Healthy(Predict(s)) && AllDefinite(Predict(s))
  {
    hide Predict, Times;
    PredictBlocks(s);
    var std := PredictStd(s.mean[3]);
    forall i | 0 <= i < 4 ensures Definite(BlockAt(Predict(s).cov, i)) {
      SquareIsNonNegative(std[i]);
      SquareIsNonNegative(std[i + 4]);
      if Definite(BlockAt(s.cov, i)) {
        DefiniteMoves(BlockAt(s.cov, i), Sq(std[i]), Sq(std[i + 4]));
      } else {
        assert std[i] == WEIGHT_POSITION * s.mean[3] && std[i + 4] == WEIGHT_VELOCITY * s.mean[3];
        SquareIsPositive(std[i]);
        SquareIsPositive(std[i + 4]);
        PinnedMoves(BlockAt(s.cov, i), Sq(std[i]), Sq(std[i + 4]));
      }
    }
  }

  lemma FreezeHealthy(s: State)
    requires Healthy(s)
    ensures Healthy(FreezeHeightVelocity(s))
  {}

  /** In a healthy state every innovation variance is positive, so the solver is always
      handed an invertible matrix. */
  lemma HealthyIsObservable(s: State)
    requires Healthy(s)
    ensures Observable(s)
  {
    forall i | 0 <= i < 4 ensures Innovation(s, i) > 0.0 {
      var std := ProjectStd(s.mean[3]);
      SquareIsNonNegative(std[i]);
      assert s.cov[i][i] == BlockAt(s.cov, i).p;
      if !Definite(BlockAt(s.cov, i)) {
        assert std[i] == WEIGHT_POSITION * s.mean[3];
        SquareIsPositive(std[i]);
      }
    }
  }

  lemma GainFraction(p: real, d: real)
    requires 0.0 <= p <= d && d > 0.0
    ensures 0.0 <= Over(p, d) <= 1.0
    ensures p == d ==> Over(p, d) == 1.0
    ensures p == 0.0 ==> Over(p, d) == 0.0
  {}

  lemma Interpolate(x: real, z: real, g: real)
    requires 0.0 <= g <= 1.0
    ensures Between(x + Times(z - x, g), x, z)
    ensures x > 0.0 && z > 0.0 ==> x + Times(z - x, g) > 0.0
  {
    if z >= x {
      NonNegativeProduct(z - x, g);
      NonNegativeProduct(z - x, 1.0 - g);
      assert Times(z - x, g) + Times(z - x, 1.0 - g) == z - x;
    } else {
      NonNegativeProduct(x - z, g);
      NonNegativeProduct(x - z, 1.0 - g);
      assert Times(x - z, g) + Times(x - z, 1.0 - g) == x - z;
      assert Times(x - z, g) == -Times(z - x, g);
    }
  }

  /** The corrected block in product form: with d = p + n, everything positional shrinks by n/d. */
  lemma CorrectedBlockForm(b: Block, n: real)
    requires n >= 0.0 && b.p + n > 0.0
    ensures var d := b.p + n; var g := Over(n, d);
      && CorrectedBlock(b, d).p == Times(b.p, g)
      && CorrectedBlock(b, d).q == Times(b.q, g)
      && Times(CorrectedBlock(b, d).v, d) == Times(b.v, d) - Sq(b.q)
  {
    var d := b.p + n;
    var x, y := Over(b.p, d), Over(n, d);
    assert x + y == 1.0 by {
      SumOver(b.p, n, d);
    }
    Complement(b.p, x, y);
    Complement(b.q, x, y);
    CrossSymmetric(b.p, b.q, d);
    VelocityForm(b.v, b.q, d);
  }

  lemma SumOver(p: real, n: real, d: real)
    requires d != 0.0 && d == p + n
    ensures Over(p, d) + Over(n, d) == 1.0
  {
    assert p / d + n / d == (p + n) / d;
  }

  lemma Complement(b: real, x: real, y: real)
    requires x + y == 1.0
    ensures b - Times(b, x) == Times(b, y)
  {
    assert y == 1.0 - x;
  }

  lemma VelocityForm(v: real, q: real, d: real)
    requires d != 0.0
    ensures Times(v - Times(q, Over(q, d)), d) == Times(v, d) - Sq(q)
  {
    assert Times(v - Times(q, Over(q, d)), d) == Times(v, d) - Times(Times(q, Over(q, d)), d);
    assert Times(Times(q, Over(q, d)), d) == Times(q, Times(Over(q, d), d));
    QuotientTimes(q, d);
  }

  /** With noise the corrected block is definite; without it the position is pinned. */
  lemma DefiniteCorrects(b: Block, n: real)
    requires Definite(b) && n >= 0.0
    ensures var c := CorrectedBlock(b, b.p + n);
      && (if n > 0.0 then Definite(c) else Pinned(c))
      && c.p <= b.p && c.v <= b.v
  {
    hide CorrectedBlock, Times, Over;
    var d := b.p + n;
    var c, g := CorrectedBlock(b, d), Over(n, d);
    CorrectedBlockForm(b, n);
    GainFraction(n, d);
    GainFraction(b.p, d);
    SquareIsNonNegative(b.q);
    assert Times(c.v, d) > 0.0 by {
      NonNegativeProduct(b.v, n);
      SplitProduct(b.v, b.p, n);
      SwapProduct(b.v, b.p);
    }
    PositiveFactor(c.v, d);
    ShrinksBy(b.p, g);
    VelocityShrinks(b, d);
    if n > 0.0 {
      PositiveOver(n, d);
      SameSignProduct(b.p, g);
      DeterminantShrinks(b, n, c, g);
    } else {
      OverOfZero(n, d);
      TimesZero(b.p);
      TimesZero(b.q);
    }
  }

  lemma SplitProduct(x: real, y: real, z: real)
    ensures Times(x, y + z) == Times(x, y) + Times(x, z)
  {}

  lemma SwapProduct(x: real, y: real)
    ensures Times(x, y) == Times(y, x)
  {}

  lemma TimesZero(x: real)
    ensures Times(x, 0.0) == 0.0
  {}

  lemma OverOfZero(x: real, y: real)
    requires x == 0.0 && y != 0.0
    ensures Over(x, y) == 0.0
  {}

  lemma PositiveOver(x: real, y: real)
    requires x > 0.0 && y > 0.0
    ensures Over(x, y) > 0.0
  {}

  lemma ShrinksBy(x: real, g: real)
    requires x >= 0.0 && 0.0 <= g <= 1.0
    ensures Times(x, g) <= x
  {
    NonNegativeProduct(x, 1.0 - g);
    assert Times(x, g) + Times(x, 1.0 - g) == x;
  }

  lemma VelocityShrinks(b: Block, d: real)
    requires d > 0.0
    ensures CorrectedBlock(b, d).v <= b.v
  {
    assert Times(b.q, Over(b.q, d)) == Over(Sq(b.q), d);
    SquareIsNonNegative(b.q);
    if Sq(b.q) > 0.0 {
      PositiveOver(Sq(b.q), d);
    } else {
      OverOfZero(Sq(b.q), d);
    }
  }

  lemma DeterminantShrinks(b: Block, n: real, c: Block, g: real)
    requires Definite(b) && n > 0.0 && g > 0.0 && b.p + n > 0.0 && g == Over(n, b.p + n)
    requires c.p == Times(b.p, g) && c.q == Times(b.q, g)
    requires Times(c.v, b.p + n) == Times(b.v, b.p + n) - Sq(b.q)
    ensures Times(c.p, c.v) > Sq(c.q)
  {
    var d := b.p + n;
    // d (c.p c.v - c.q^2) = g (p (v d - q^2) - q^2 g d) = g d (p v - q^2), since g d = n
    assert Times(g, d) == n by { QuotientTimes(n, d); }
    var det := Times(b.p, b.v) - Sq(b.q);
    assert Times(Times(c.p, c.v), d) == Times(g, Times(b.p, Times(c.v, d)));
    assert Times(Sq(c.q), d) == Times(g, Times(Sq(b.q), Times(g, d)));
    DeterminantIdentity(b, n, Times(c.v, d));
    SameSignProduct(det, d);
    SameSignProduct(g, Times(det, d));
    assert Times(Times(c.p, c.v) - Sq(c.q), d) == Times(g, Times(det, d));
    PositiveFactor(Times(c.p, c.v) - Sq(c.q), d);
  }

  lemma DeterminantIdentity(b: Block, n: real, scaled: real)
    requires scaled == Times(b.v, b.p + n) - Sq(b.q)
    ensures Times(b.p, scaled) - Times(Sq(b.q), n) == Times(Times(b.p, b.v) - Sq(b.q), b.p + n)
  {
    var d := b.p + n;
    assert Times(b.p, Times(b.v, d)) == Times(Times(b.p, b.v), d);
    assert Times(b.p, scaled) == Times(Times(b.p, b.v), d) - Times(b.p, Sq(b.q));
    assert Times(b.p, Sq(b.q)) + Times(Sq(b.q), n) == Times(Sq(b.q), d);
  }

  lemma PinnedCorrects(b: Block, n: real)
    requires Pinned(b) && n > 0.0
    ensures CorrectedBlock(b, b.p + n) == b
  {
    OverOfZero(b.p, n);
    OverOfZero(b.q, n);
    ZeroTimes(Over(b.p, n));
  }

  /** One measurement update of a healthy state, by the full matrix formula: the system is
      invertible, each coordinate lands between prediction and measurement with a gain in [0, 1],
      no variance grows, and the covariance stays definite unless the height was exactly 0. */
  lemma UpdateHealthy(s: State, z: Vec, solve: LinearSolver)
    requires Healthy(s) && |z| == 4 && z[3] > 0.0 && SolverOk(solve)
    ensures exists t :: Inverse4(Project(s).1, t)
    ensures Healthy(Update(s, z, solve))
    ensures AllDefinite(Update(s, z, solve)) <==> AllDefinite(s) && s.mean[3] != 0.0
    ensures Observable(s) && forall i :: 0 <= i < 4 ==>
      && 0.0 <= Over(s.cov[i][i], Innovation(s, i)) <= 1.0
      && Update(s, z, solve).mean[i]
         == s.mean[i] + Times(z[i] - s.mean[i], Over(s.cov[i][i], Innovation(s, i)))
      && Between(Update(s, z, solve).mean[i], s.mean[i], z[i])
    ensures forall i :: 0 <= i < 8 ==> Update(s, z, solve).cov[i][i] <= s.cov[i][i]
  {
    hide Update, Correct, Project, Times, Over, CorrectedBlock;
    HealthyIsObservable(s);
    var gain := GainOfSolver(s, solve);
    var t := Update(s, z, solve);
    assert t == Correct(s, z, gain);
    CorrectBlocks(s, z, gain);
    forall i | 0 <= i < 4
      ensures Between(t.mean[i], s.mean[i], z[i])
      ensures 0.0 <= Over(s.cov[i][i], Innovation(s, i)) <= 1.0
      ensures VarianceNoLarger(BlockAt(t.cov, i), BlockAt(s.cov, i))
      ensures Definite(BlockAt(t.cov, i))
        <==> Definite(BlockAt(s.cov, i)) && (i == 2 || s.mean[3] != 0.0)
      ensures !Definite(BlockAt(t.cov, i)) ==> Pinned(BlockAt(t.cov, i))
    {
      CorrectHealthyBlock(s, z, t, i);
    }
    if !AllDefinite(t) {
      PinnedHeight(s, z, t);
    }
    BlocksCoverDiagonal(s.cov, t.cov);
  }

  /** A state reached with pinned coordinates has a positive height. */
  lemma PinnedHeight(s: State, z: Vec, t: State)
    requires Healthy(s) && Shaped(t) && |z| == 4 && z[3] > 0.0
    requires Observable(s)
    requires t.mean[3] == s.mean[3] + Times(z[3] - s.mean[3], Over(s.cov[3][3], Innovation(s, 3)))
    requires AllDefinite(s) ==> s.mean[3] == 0.0
    ensures t.mean[3] > 0.0
  {
    var g := Over(s.cov[3][3], Innovation(s, 3));
    assert s.cov[3][3] == BlockAt(s.cov, 3).p;
    if AllDefinite(s) {
      assert ProjectStd(s.mean[3])[3] == 0.0;
      assert Sq(ProjectStd(s.mean[3])[3]) == 0.0;
      GainFraction(s.cov[3][3], Innovation(s, 3));
    } else {
      OverOfZero(s.cov[3][3], Innovation(s, 3));
      TimesZero(z[3] - s.mean[3]);
    }
  }

  predicate VarianceNoLarger(b: Block, a: Block) {
    b.p <= a.p && b.v <= a.v
  }

  lemma BlocksCoverDiagonal(a: Mat, b: Mat)
    requires IsMat(a, 8, 8) && IsMat(b, 8, 8)
    requires forall i :: 0 <= i < 4 ==> VarianceNoLarger(BlockAt(b, i), BlockAt(a, i))
    ensures forall i :: 0 <= i < 8 ==> b[i][i] <= a[i][i]
  {
    forall i | 0 <= i < 8 ensures b[i][i] <= a[i][i] {
      assert VarianceNoLarger(BlockAt(b, i % 4), BlockAt(a, i % 4));
    }
  }

  lemma CorrectHealthyBlock(s: State, z: Vec, t: State, i: nat)
    requires Healthy(s) && Observable(s) && Shaped(t) && |z| == 4 && i < 4
    requires BlockAt(t.cov, i) == CorrectedBlock(BlockAt(s.cov, i), Innovation(s, i))
    requires t.mean[i] == s.mean[i] + Times(z[i] - s.mean[i], Over(s.cov[i][i], Innovation(s, i)))
    ensures Between(t.mean[i], s.mean[i], z[i])
    ensures 0.0 <= Over(s.cov[i][i], Innovation(s, i)) <= 1.0
    ensures VarianceNoLarger(BlockAt(t.cov, i), BlockAt(s.cov, i))
    ensures Definite(BlockAt(t.cov, i))
      <==> Definite(BlockAt(s.cov, i)) && (i == 2 || s.mean[3] != 0.0)
    ensures !Definite(BlockAt(t.cov, i)) ==> Pinned(BlockAt(t.cov, i))
  {
    hide CorrectedBlock, Times, Over;
    var b, std := BlockAt(s.cov, i), ProjectStd(s.mean[3])[i];
    assert std == if i == 2 then 0.1 else WEIGHT_POSITION * s.mean[3];
    SquareIsNonNegative(std);
    if std != 0.0 {
      SquareIsPositive(std);
    } else {
      SquareOfZero(std);
    }
    GainFraction(s.cov[i][i], Innovation(s, i));
    Interpolate(s.mean[i], z[i], Over(s.cov[i][i], Innovation(s, i)));
    if Definite(b) {
      DefiniteCorrects(b, Sq(std));
    } else {
      PinnedCorrects(b, Sq(std));
    }
  }

  lemma SquareOfZero(x: real)
    requires x == 0.0
    ensures Sq(x) == 0.0
  {}

  // ---- the scale of the noise -----------------------------------------------

  /** How far the first correction of a new track moves each coordinate towards its measurement, whatever
      the size of the box: by 105/121 for centre and height, by less than 2 percent for the aspect. */
  lemma FirstGains(z: Vec)
    requires |z| == 4 && z[3] > 0.0
    ensures var s := Predict(Initiate(z));
      && Innovation(s, 0) > 0.0 && Innovation(s, 1) > 0.0 && Innovation(s, 2) > 0.0 && Innovation(s, 3) > 0.0
      && 121.0 * s.cov[0][0] == 105.0 * Innovation(s, 0) && 121.0 * s.cov[1][1] == 105.0 * Innovation(s, 1)
      && 121.0 * s.cov[3][3] == 105.0 * Innovation(s, 3)
      && 102000001.0 * s.cov[2][2] == 2000001.0 * Innovation(s, 2)
  {
    hide Predict, Initiate, PredictStd, ProjectStd, Sq;
    var s := Predict(Initiate(z));
    FirstVariances(z);
    NoiseOfHeight(z[3]);
    SquareIsPositive(z[3]);
    assert s.cov[0][0] == BlockAt(s.cov, 0).p && s.cov[1][1] == BlockAt(s.cov, 1).p;
    assert s.cov[2][2] == BlockAt(s.cov, 2).p && s.cov[3][3] == BlockAt(s.cov, 3).p;
  }

  lemma FirstVariances(z: Vec)
    requires |z| == 4 && z[3] > 0.0
    ensures var s, p := Predict(Initiate(z)), 0.01640625 * Sq(z[3]);
      && s.mean[3] == z[3] && BlockAt(s.cov, 2).p == 0.0002000001
      && BlockAt(s.cov, 0).p == p && BlockAt(s.cov, 1).p == p && BlockAt(s.cov, 3).p == p
  {
    hide Predict, Initiate, PredictStd, ProjectStd, Sq;
    var s0 := Initiate(z);
    InitiateBlocks(z);
    RestingBlocks(z);
    assert s0.mean[3] == z[3];
    PredictBlocks(s0);
    var s := Predict(s0);
    assert s.mean[3] == s0.mean[3] + s0.mean[7];
    PredictedBlock(s0, 0);
    PredictedBlock(s0, 1);
    PredictedBlock(s0, 2);
    PredictedBlock(s0, 3);
  }

  /** Prediction of one coordinate, with its noise: in proportion to the height, but for the aspect. */
  lemma PredictedBlock(s: State, i: nat)
    requires Shaped(s) && Decoupled(s.cov) && i < 4
    ensures var b, h := BlockAt(s.cov, i), s.mean[3];
      BlockAt(Predict(s).cov, i)
      == Block(b.p + 2.0 * b.q + b.v + (if i == 2 then 0.0001 else 0.0025 * Sq(h)),
               b.q + b.v,
               b.v + (if i == 2 then 0.0000000001 else 0.0000390625 * Sq(h)))
  {
    hide Predict, Sq, PredictStd, Decoupled;
    PredictBlocks(s);
    NoiseOfHeight(s.mean[3]);
    var b, std := BlockAt(s.cov, i), PredictStd(s.mean[3]);
    assert BlockAt(Predict(s).cov, i)
        == Block(b.p + 2.0 * b.q + b.v + Sq(std[i]), b.q + b.v, b.v + Sq(std[i + 4]));
    assert i == 0 || i == 1 || i == 2 || i == 3;
  }

  /** A new track stands still, with block variances in proportion to its height. */
  lemma RestingBlocks(z: Vec)
    requires |z| == 4
    ensures var s := Initiate(z);
      && s.mean[..4] == z && s.mean[4] == s.mean[5] == s.mean[6] == s.mean[7] == 0.0
      && BlockAt(s.cov, 0) == Block(0.01 * Sq(z[3]), 0.0, 0.00390625 * Sq(z[3]))
      && BlockAt(s.cov, 1) == BlockAt(s.cov, 3) == BlockAt(s.cov, 0)
      && BlockAt(s.cov, 2) == Block(0.0001, 0.0, 0.0000000001)
  {
    assert Sq(2.0 * WEIGHT_POSITION * z[3]) == 0.01 * Sq(z[3]);
    assert Sq(10.0 * WEIGHT_VELOCITY * z[3]) == 0.00390625 * Sq(z[3]);
    assert Sq(0.01) == 0.0001 && Sq(0.00001) == 0.0000000001;
  }

  lemma NoiseOfHeight(h: real)
    ensures Sq(PredictStd(h)[0]) == Sq(PredictStd(h)[1]) == Sq(PredictStd(h)[3]) == 0.0025 * Sq(h)
    ensures Sq(ProjectStd(h)[0]) == Sq(ProjectStd(h)[1]) == Sq(ProjectStd(h)[3]) == 0.0025 * Sq(h)
    ensures Sq(PredictStd(h)[2]) == 0.0001 && Sq(ProjectStd(h)[2]) == 0.01
    ensures Sq(PredictStd(h)[4]) == Sq(PredictStd(h)[5]) == Sq(PredictStd(h)[7]) == 0.0000390625 * Sq(h)
    ensures Sq(PredictStd(h)[6]) == 0.0000000001
  {
    assert Sq(WEIGHT_VELOCITY * h) == 0.0000390625 * Sq(h);
    assert Sq(0.00001) == 0.0000000001;
    assert Sq(WEIGHT_POSITION * h) == 0.0025 * Sq(h);
    assert Sq(0.01) == 0.0001 && Sq(0.1) == 0.01;
  }

  // ---- positive definiteness of the whole matrix ----------------------------

  /** x^T m x */
  function Quadratic(m: Mat, x: Vec): real
    requires IsMat(m, 8, 8) && |x| == 8
  {
    DotCol(x, Mul(m, Column(x), 8, 8, 1), 0, 8)
  }

  ghost predicate NonZero(x: Vec) {
    |x| == 8 && exists i :: 0 <= i < 8 && x[i] != 0.0
  }

  ghost predicate PositiveDefinite(m: Mat) {
    IsMat(m, 8, 8) && forall x :: NonZero(x) ==> Quadratic(m, x) > 0.0
  }

  function BlockForm(b: Block, x: real, y: real): real {
    Times(x, Times(b.p, x) + Times(b.q, y)) + Times(y, Times(b.q, x) + Times(b.v, y))
  }

  lemma QuadraticByBlocks(m: Mat, x: Vec)
    requires Decoupled(m) && |x| == 8
    ensures Quadratic(m, x)
         == BlockForm(BlockAt(m, 0), x[0], x[4]) + BlockForm(BlockAt(m, 1), x[1], x[5])
          + BlockForm(BlockAt(m, 2), x[2], x[6]) + BlockForm(BlockAt(m, 3), x[3], x[7])
  {
    hide DotCol, Times, Mul;
    var mx := Mul(m, Column(x), 8, 8, 1);
    RowByBlock(m, x, 0);
    RowByBlock(m, x, 1);
    RowByBlock(m, x, 2);
    RowByBlock(m, x, 3);
    SumOfEight(x, mx);
  }

  /** Two rows of m x, those of one block. */
  lemma RowByBlock(m: Mat, x: Vec, i: nat)
    requires Decoupled(m) && |x| == 8 && i < 4
    ensures Mul(m, Column(x), 8, 8, 1)[i][0] == Times(m[i][i], x[i]) + Times(m[i][i + 4], x[i + 4])
    ensures Mul(m, Column(x), 8, 8, 1)[i + 4][0] == Times(m[i + 4][i], x[i]) + Times(m[i + 4][i + 4], x[i + 4])
  {
    hide Times;
    assert forall k :: 0 <= k < 8 && k != i && k != i + 4 ==> k % 4 != i;
    DotAt2(m[i], Column(x), 0, 8, i, i + 4);
    DotAt2(m[i + 4], Column(x), 0, 8, i, i + 4);
  }

  lemma SumOfEight(x: Vec, m: Mat)
    requires |x| == 8 && IsMat(m, 8, 1)
    ensures DotCol(x, m, 0, 8)
         == Times(x[0], m[0][0]) + Times(x[1], m[1][0]) + Times(x[2], m[2][0]) + Times(x[3], m[3][0])
          + Times(x[4], m[4][0]) + Times(x[5], m[5][0]) + Times(x[6], m[6][0]) + Times(x[7], m[7][0])
  {
    hide Times;
    assert DotCol(x, m, 0, 0) == 0.0;
    assert DotCol(x, m, 0, 2) == DotCol(x, m, 0, 0) + Times(x[0], m[0][0]) + Times(x[1], m[1][0]);
    assert DotCol(x, m, 0, 4) == DotCol(x, m, 0, 2) + Times(x[2], m[2][0]) + Times(x[3], m[3][0]);
    assert DotCol(x, m, 0, 6) == DotCol(x, m, 0, 4) + Times(x[4], m[4][0]) + Times(x[5], m[5][0]);
    assert DotCol(x, m, 0, 8) == DotCol(x, m, 0, 6) + Times(x[6], m[6][0]) + Times(x[7], m[7][0]);
  }

  lemma DefiniteForm(b: Block, x: real, y: real)
    requires Definite(b)
    ensures BlockForm(b, x, y) >= 0.0
    ensures x != 0.0 || y != 0.0 ==> BlockForm(b, x, y) > 0.0
  {
    var u := Times(b.p, x) + Times(b.q, y);
    var det := Times(b.p, b.v) - Sq(b.q);
    // p times the form is (p x + q y)^2 + (p v - q^2) y^2
    assert Times(BlockForm(b, x, y), b.p) == Sq(u) + Times(det, Sq(y)) by {
      FormIdentity(b, x, y);
    }
    SquareIsNonNegative(u);
    SquareIsNonNegative(y);
    NonNegativeProduct(det, Sq(y));
    if y != 0.0 {
      SquareIsPositive(y);
      SameSignProduct(det, Sq(y));
      PositiveFactor(BlockForm(b, x, y), b.p);
    } else if x != 0.0 {
      SquareIsPositive(x);
      SameSignProduct(b.p, Sq(x));
      assert BlockForm(b, x, 0.0) == Times(b.p, Sq(x));
    }
  }

  lemma FormIdentity(b: Block, x: real, y: real)
    ensures Times(BlockForm(b, x, y), b.p)
         == Sq(Times(b.p, x) + Times(b.q, y)) + Times(Times(b.p, b.v) - Sq(b.q), Sq(y))
  {
    assert BlockForm(b, x, y) == b.p * x * x + 2.0 * (b.q * x * y) + b.v * y * y;
    assert Sq(Times(b.p, x) + Times(b.q, y))
        == b.p * x * (b.p * x) + 2.0 * (b.p * x * (b.q * y)) + b.q * y * (b.q * y);
  }

  /** For a decoupled matrix, positive definite means: every block is. */
  lemma DefiniteByBlocks(s: State)
    requires Shaped(s) && Decoupled(s.cov)
    ensures PositiveDefinite(s.cov) <==> AllDefinite(s)
  {
    if AllDefinite(s) {
      forall x | NonZero(x) ensures Quadratic(s.cov, x) > 0.0 {
        BlocksGiveForm(s.cov, x);
      }
    }
    if PositiveDefinite(s.cov) {
      forall i | 0 <= i < 4 ensures Definite(BlockAt(s.cov, i)) {
        FormGivesBlock(s.cov, i);
      }
    }
  }

  lemma BlocksGiveForm(m: Mat, x: Vec)
    requires Decoupled(m) && NonZero(x)
    requires forall i :: 0 <= i < 4 ==> Definite(BlockAt(m, i))
    ensures Quadratic(m, x) > 0.0
  {
    hide BlockForm, Quadratic, Definite;
    QuadraticByBlocks(m, x);
    DefiniteForm(BlockAt(m, 0), x[0], x[4]);
    DefiniteForm(BlockAt(m, 1), x[1], x[5]);
    DefiniteForm(BlockAt(m, 2), x[2], x[6]);
    DefiniteForm(BlockAt(m, 3), x[3], x[7]);
  }

  lemma FormGivesBlock(m: Mat, i: nat)
    requires Decoupled(m) && i < 4 && PositiveDefinite(m)
    ensures Definite(BlockAt(m, i))
  {
    hide PositiveDefinite;
    var b := BlockAt(m, i);
    Probe(m, i, 1.0, 0.0);
    Probe(m, i, 0.0, 1.0);
    Probe(m, i, -b.q, b.p);
    assert BlockForm(b, 1.0, 0.0) == b.p && BlockForm(b, 0.0, 1.0) == b.v;
    assert BlockForm(b, -b.q, b.p) == Times(Times(b.p, b.v) - Sq(b.q), b.p);
    PositiveFactor(Times(b.p, b.v) - Sq(b.q), b.p);
  }

  lemma Probe(m: Mat, i: nat, x: real, y: real)
    requires Decoupled(m) && i < 4
    ensures PositiveDefinite(m) && (x != 0.0 || y != 0.0) ==> BlockForm(BlockAt(m, i), x, y) > 0.0
  {
    hide BlockForm;
    var w := seq(8, k => if k == i then x else if k == i + 4 then y else 0.0);
    QuadraticByBlocks(m, w);
    ZeroForm(BlockAt(m, 0));
    ZeroForm(BlockAt(m, 1));
    ZeroForm(BlockAt(m, 2));
    ZeroForm(BlockAt(m, 3));
    if PositiveDefinite(m) && (x != 0.0 || y != 0.0) {
      assert w[i] == x && w[i + 4] == y;
      assert NonZero(w);
    }
  }

  lemma ZeroForm(b: Block)
    ensures BlockForm(b, 0.0, 0.0) == 0.0
  {}

  // ---- every sequence of predictions and measurements -----------------------

  /** One step of a track's filter: predict while tracked, predict while coasting, measure. */
  datatype Step = Moving | Coasting | Measure(z: Vec)

  ghost predicate ValidStep(step: Step) {
    step.Measure? ==> |step.z| == 4 && step.z[3] > 0.0
  }

  function Apply(s: State, step: Step, solve: LinearSolver): (t: State)
    requires Shaped(s) && ValidStep(step) && SolverOk(solve)
    ensures Shaped(t)
  {
    match step
    case Moving => Predict(s)
    case Coasting => Predict(FreezeHeightVelocity(s))
    case Measure(z) => Update(s, z, solve)
  }

  function Run(z0: Vec, steps: seq<Step>, solve: LinearSolver): (s: State)
    requires |z0| == 4 && SolverOk(solve)
    requires forall k :: 0 <= k < |steps| ==> ValidStep(steps[k])
    ensures Shaped(s)
  {
    if steps == [] then Initiate(z0)
    else Apply(Run(z0, steps[..|steps| - 1], solve), steps[|steps| - 1], solve)
  }

  /** Since the last prediction, some measurement was taken at height exactly 0. */
  ghost predicate MeasuredAtZeroHeight(z0: Vec, steps: seq<Step>, solve: LinearSolver)
    requires |z0| == 4 && SolverOk(solve)
    requires forall k :: 0 <= k < |steps| ==> ValidStep(steps[k])
  {
    steps != [] && steps[|steps| - 1].Measure? &&
    (|| Run(z0, steps[..|steps| - 1], solve).mean[3] == 0.0
     || MeasuredAtZeroHeight(z0, steps[..|steps| - 1], solve))
  }

  /** From a detection of positive height, any sequence of predictions and measurements of
      positive height keeps the covariance decoupled and the innovation matrix invertible; the
      covariance is positive definite exactly when no measurement since the last prediction
      met a predicted height of 0. */
  lemma {:induction false} RunStaysHealthy(z0: Vec, steps: seq<Step>, solve: LinearSolver)
    requires |z0| == 4 && z0[3] > 0.0 && SolverOk(solve)
    requires forall k :: 0 <= k < |steps| ==> ValidStep(steps[k])
    ensures var s := Run(z0, steps, solve);
      && Healthy(s) && Observable(s)
      && (exists t :: Inverse4(Project(s).1, t))
      && (PositiveDefinite(s.cov) <==> !MeasuredAtZeroHeight(z0, steps, solve))
  {
    hide Apply, Initiate, Healthy, PositiveDefinite;
    var s := Run(z0, steps, solve);
    if steps == [] {
      InitiateHealthy(z0);
    } else {
      var before := Run(z0, steps[..|steps| - 1], solve);
      RunStaysHealthy(z0, steps[..|steps| - 1], solve);
      ApplyHealthy(before, steps[|steps| - 1], solve);
    }
    HealthyFacts(s);
  }

  lemma HealthyFacts(s: State)
    requires Healthy(s)
    ensures Observable(s)
    ensures exists t :: Inverse4(Project(s).1, t)
    ensures PositiveDefinite(s.cov) <==> AllDefinite(s)
  {
    hide PositiveDefinite, Inverse4, Project, Innovation;
    HealthyIsObservable(s);
    DefiniteByBlocks(s);
    ObservableIsInvertible(s);
  }

  lemma ObservableIsInvertible(s: State)
    requires Shaped(s) && Decoupled(s.cov) && Observable(s)
    ensures exists t :: Inverse4(Project(s).1, t)
  {
    hide Project, Inverse4;
    ProjectBlocks(s);
    assert forall i :: 0 <= i < 4 ==> Project(s).1[i][i] == Innovation(s, i);
    DiagonalInverse(Project(s).1);
  }

  lemma ApplyHealthy(s: State, step: Step, solve: LinearSolver)
    requires Healthy(s) && ValidStep(step) && SolverOk(solve)
    ensures Healthy(Apply(s, step, solve))
    ensures PositiveDefinite(Apply(s, step, solve).cov)
      <==> (step.Measure? ==> s.mean[3] != 0.0 && PositiveDefinite(s.cov))
  {
    hide Predict, Update, PositiveDefinite;
    match step {
      case Moving => PredictHealthy(s);
      case Coasting =>
        FreezeHealthy(s);
        PredictHealthy(FreezeHeightVelocity(s));
      case Measure(z) => UpdateHealthy(s, z, solve);
    }
    HealthyFacts(s);
    HealthyFacts(Apply(s, step, solve));
  }

  /** The height can reach exactly 0 and be measured there: a unit box that shrinks to 9/130 of
      its height in one frame is predicted at height 0 in the next. */
  lemma SingularUpdate(solve: LinearSolver)
    requires SolverOk(solve)
    ensures var z0, z := [0.0, 0.0, 1.0, 1.0], [0.0, 0.0, 1.0, 9.0 / 130.0];
      var s := Predict(Update(Predict(Initiate(z0)), z, solve));
      s.mean[3] == 0.0 && !PositiveDefinite(Update(s, z0, solve).cov)
  {
    hide Predict, Update, Initiate, PositiveDefinite, Healthy;
    var z0, z := [0.0, 0.0, 1.0, 1.0], [0.0, 0.0, 1.0, 9.0 / 130.0];
    ShrinkingBox(solve);
    InitiateHealthy(z0);
    ApplyHealthy(Initiate(z0), Moving, solve);
    ApplyHealthy(Predict(Initiate(z0)), Measure(z), solve);
    ApplyHealthy(Update(Predict(Initiate(z0)), z, solve), Moving, solve);
    ApplyHealthy(Predict(Update(Predict(Initiate(z0)), z, solve)), Measure(z0), solve);
  }

  /** So the exception of `RunStaysHealthy` is met by a sequence of calls of the filter alone. */
  lemma SingularRunExists(solve: LinearSolver)
    requires SolverOk(solve)
    ensures var z0, steps := [0.0, 0.0, 1.0, 1.0],
        [Moving, Measure([0.0, 0.0, 1.0, 9.0 / 130.0]), Moving, Measure([0.0, 0.0, 1.0, 1.0])];
      MeasuredAtZeroHeight(z0, steps, solve) && !PositiveDefinite(Run(z0, steps, solve).cov)
  {
    hide Predict, Update, Initiate, PositiveDefinite;
    var z0, z := [0.0, 0.0, 1.0, 1.0], [0.0, 0.0, 1.0, 9.0 / 130.0];
    var steps := [Moving, Measure(z), Moving, Measure(z0)];
    assert steps[..3][..2][..1][..0] == [] && steps[..3][..2][..1] == [Moving];
    assert steps[..3][..2] == [Moving, Measure(z)] && steps[..3] == [Moving, Measure(z), Moving];
    assert Run(z0, [Moving], solve) == Predict(Initiate(z0));
    assert Run(z0, [Moving, Measure(z)], solve) == Update(Predict(Initiate(z0)), z, solve);
    SingularUpdate(solve);
  }

  lemma UnitBoxPredicted()
    ensures var s := Predict(Initiate([0.0, 0.0, 1.0, 1.0]));
      && Healthy(s) && s.mean[3] == 1.0 && s.mean[7] == 0.0
      && s.cov[3][3] == 0.01640625 && s.cov[7][3] == 0.00390625
      && Innovation(s, 3) == 0.01890625
  {
    var z0 := [0.0, 0.0, 1.0, 1.0];
    var s0 := Initiate(z0);
    InitiateHealthy(z0);
    assert s0.mean[7] == 0.0 && BlockAt(s0.cov, 3) == Block(0.01, 0.0, 0.00390625);
    hide Predict;
    PredictBlocks(s0);
    PredictHealthy(s0);
    assert Sq(PredictStd(1.0)[3]) == 0.0025;
    var s := Predict(s0);
    assert s.mean[7] == s0.mean[7];
    assert BlockAt(s.cov, 3).p == 0.01640625 && BlockAt(s.cov, 3).q == 0.00390625;
    assert Sq(ProjectStd(1.0)[3]) == 0.0025;
  }

  lemma ShrinkingBox(solve: LinearSolver)
    requires SolverOk(solve)
    ensures Predict(Update(Predict(Initiate([0.0, 0.0, 1.0, 1.0])), [0.0, 0.0, 1.0, 9.0 / 130.0], solve)).mean[3] == 0.0
  {
    hide Predict, Update, Initiate, Healthy;
    UnitBoxPredicted();
    Shrinks(Predict(Initiate([0.0, 0.0, 1.0, 1.0])), [0.0, 0.0, 1.0, 9.0 / 130.0], solve);
  }

  lemma Shrinks(s: State, z: Vec, solve: LinearSolver)
    requires Healthy(s) && |z| == 4 && z[3] == 9.0 / 130.0 && SolverOk(solve)
    requires s.mean[3] == 1.0 && s.mean[7] == 0.0
    requires s.cov[3][3] == 0.01640625 && s.cov[7][3] == 0.00390625 && Innovation(s, 3) == 0.01890625
    ensures Shaped(Update(s, z, solve)) && Predict(Update(s, z, solve)).mean[3] == 0.0
  {
    hide Predict, Update, Correct, Healthy, Innovation;
    HealthyShape(s);
    UpdateHealthy(s, z, solve);
    var t := Update(s, z, solve);
    HealthyShape(t);
    var gain := GainOfSolver(s, solve);
    CorrectMean(s, z, gain, 3);
    CorrectMean(s, z, gain, 7);
    PredictBlocks(t);
    ShrunkMeans(t.mean[3], t.mean[7]);
  }

  lemma ShrunkMeans(height: real, velocity: real)
    requires height == 1.0 + Times(9.0 / 130.0 - 1.0, Over(0.01640625, 0.01890625))
    requires velocity == 0.0 + Times(9.0 / 130.0 - 1.0, Over(0.00390625, 0.01890625))
    ensures height + velocity == 0.0
  {}

  lemma HealthyShape(s: State)
    requires Healthy(s)
    ensures Shaped(s) && Decoupled(s.cov)
  {}
}
