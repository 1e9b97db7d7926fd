/** Association of rows (tracks) with columns (detections) under a cost gate:
    `linear_assignment` and its greedy fallback. The SciPy solver and `argsort` are
    code outside the repository; they enter as function values with a contract. */
module Assignment {

  datatype Matrix = Matrix(rows: nat, cols: nat, at: seq<seq<real>>)

  ghost predicate WellShaped(c: Matrix) {
    |c.at| == c.rows && forall i :: 0 <= i < c.rows ==> |c.at[i]| == c.cols
  }

  type Cost = c: Matrix | WellShaped(c) witness Matrix(0, 0, [])

  type Pair = (nat, nat)

  datatype Matching = Matching(matches: seq<Pair>, rows: seq<nat>, cols: seq<nat>)

  /** Which of the two code paths is compiled in: SciPy's solver, or an argsort of all cells. */
  datatype Solver = Scipy(lsa: Cost -> seq<Pair>) | Fallback(argsort: Cost -> seq<Pair>)

  // ---- matchings ------------------------------------------------------------

  ghost predicate InRange(c: Cost, m: seq<Pair>) {
    forall k :: 0 <= k < |m| ==> m[k].0 < c.rows && m[k].1 < c.cols
  }

  ghost predicate Injective(m: seq<Pair>) {
    forall j, k :: 0 <= j < k < |m| ==> m[j].0 != m[k].0 && m[j].1 != m[k].1
  }

  ghost predicate IsMatching(c: Cost, m: seq<Pair>) {
    InRange(c, m) && Injective(m)
  }

  ghost predicate IsGatedMatching(c: Cost, thresh: real, m: seq<Pair>) {
    IsMatching(c, m) && forall k :: 0 <= k < |m| ==> c.at[m[k].0][m[k].1] <= thresh
  }

  ghost predicate RowUsed(m: seq<Pair>, r: nat) {
    exists k :: 0 <= k < |m| && m[k].0 == r
  }

  ghost predicate ColUsed(m: seq<Pair>, q: nat) {
    exists k :: 0 <= k < |m| && m[k].1 == q
  }

  /** No admissible pair is left with both ends free. */
  ghost predicate IsMaximal(c: Cost, thresh: real, m: seq<Pair>) {
    forall r: nat, q: nat :: r < c.rows && q < c.cols && c.at[r][q] <= thresh
      ==> RowUsed(m, r) || ColUsed(m, q)
  }

  ghost function Total(c: Cost, m: seq<Pair>): real
    requires InRange(c, m)
  {
    if m == [] then 0.0
    else Total(c, m[..|m| - 1]) + c.at[m[|m| - 1].0][m[|m| - 1].1]
  }

  function Min(a: nat, b: nat): nat { if a < b then a else b }

  /** What `scipy.optimize.linear_sum_assignment` promises: the smaller side is matched
      completely, at the least total cost. */
  ghost predicate IsComplete(c: Cost, m: seq<Pair>) {
    IsMatching(c, m) && |m| == Min(c.rows, c.cols)
  }

  ghost predicate IsMinimum(c: Cost, m: seq<Pair>) {
    IsComplete(c, m) && forall o :: IsComplete(c, o) ==> Total(c, m) <= Total(c, o)
  }

  /** What `argsort` over the flattened matrix promises: every cell, cheapest first. */
  ghost predicate IsSortedOrder(c: Cost, order: seq<Pair>) {
    && InRange(c, order)
    && (forall r: nat, q: nat :: r < c.rows && q < c.cols ==> (r, q) in order)
    && (forall j, k :: 0 <= j < k < |order| ==>
          c.at[order[j].0][order[j].1] <= c.at[order[k].0][order[k].1])
  }

  ghost predicate SolverOk(solver: Solver) {
    match solver
    case Scipy(lsa) => forall c: Cost :: IsMinimum(c, lsa(c))
    case Fallback(argsort) => forall c: Cost :: IsSortedOrder(c, argsort(c))
  }

  // ---- the SciPy path -------------------------------------------------------

  /** The value every pair above the gate is pushed to. */
  function Ceiling(thresh: real): real { thresh + 0.0001 }

  function Clip(c: Cost, thresh: real): Cost {
    Matrix(c.rows, c.cols, seq(c.rows, i requires 0 <= i < c.rows =>
      seq(c.cols, j requires 0 <= j < c.cols =>
        if c.at[i][j] > thresh then Ceiling(thresh) else c.at[i][j])))
  }

  function KeepGated(c: Cost, thresh: real, m: seq<Pair>): seq<Pair>
    requires InRange(c, m)
  {
    if m == [] then []
    else
      var last := m[|m| - 1];
      KeepGated(c, thresh, m[..|m| - 1]) + if c.at[last.0][last.1] <= thresh then [last] else []
  }

  // ---- the greedy path ------------------------------------------------------

  /** The pairs the scan of `order` still adds, given the rows and columns already used. */
  function GreedyFrom(c: Cost, thresh: real, order: seq<Pair>, usedR: set<nat>, usedC: set<nat>): seq<Pair>
    requires InRange(c, order)
  {
    if order == [] then []
    else
      var (r, q) := order[0];
      if c.at[r][q] > thresh then []
      else if r in usedR || q in usedC then GreedyFrom(c, thresh, order[1..], usedR, usedC)
      else [(r, q)] + GreedyFrom(c, thresh, order[1..], usedR + {r}, usedC + {q})
  }

  lemma CellsInRange(c: Cost, order: seq<Pair>)
    requires IsSortedOrder(c, order)
    ensures InRange(c, order)
  {}

  method GreedyAssignment(c: Cost, thresh: real, order: seq<Pair>) returns (matches: seq<Pair>)
    requires IsSortedOrder(c, order)
    ensures matches == GreedyFrom(c, thresh, order, {}, {})
    ensures IsGatedMatching(c, thresh, matches) && IsMaximal(c, thresh, matches)
  {
    hide IsSortedOrder, IsMaximal, IsGatedMatching;
    CellsInRange(c, order);
    matches := [];
    var usedR: set<nat>, usedC: set<nat> := {}, {};
    var k := 0;
    while k < |order|
      invariant 0 <= k <= |order|
      invariant matches + GreedyFrom(c, thresh, order[k..], usedR, usedC)
             == GreedyFrom(c, thresh, order, {}, {})
    {
      var (r, q) := order[k];
      assert order[k..][0] == order[k] && order[k..][1..] == order[k + 1..];
      if c.at[r][q] > thresh {
        break;
      }
      if !(r in usedR || q in usedC) {
        usedR := usedR + {r};
        usedC := usedC + {q};
        matches := matches + [(r, q)];
      }
      k := k + 1;
    }
    assert matches == GreedyFrom(c, thresh, order, {}, {});
    GreedyIsMatching(c, thresh, order, {}, {});
    GreedyIsMaximal(c, thresh, order);
  }

  // ---- linear_assignment ----------------------------------------------------

  function Unused(n: nat, used: set<nat>): (free: seq<nat>)
    ensures forall x: nat :: x in free <==> x < n && x !in used
    ensures forall j, k :: 0 <= j < k < |free| ==> free[j] < free[k]
  {
    if n == 0 then []
    else
      var before := Unused(n - 1, used);
      assert forall j :: 0 <= j < |before| ==> before[j] in before;
      if n - 1 in used then before else before + [n - 1]
  }

  function Matches(c: Cost, thresh: real, solver: Solver): seq<Pair>
    requires SolverOk(solver)
  {
    if c.rows == 0 || c.cols == 0 then []
    else match solver
      case Scipy(lsa) =>
        assert IsMinimum(Clip(c, thresh), lsa(Clip(c, thresh)));
        KeepGated(c, thresh, lsa(Clip(c, thresh)))
      case Fallback(argsort) =>
        assert IsSortedOrder(c, argsort(c));
        GreedyFrom(c, thresh, argsort(c), {}, {})
  }

  function LinearAssignment(c: Cost, thresh: real, solver: Solver): Matching
    requires SolverOk(solver)
  {
    var m := Matches(c, thresh, solver);
    Matching(m,
             Unused(c.rows, set p | p in m :: p.0),
             Unused(c.cols, set p | p in m :: p.1))
  }

  /** On either code path the result is a gated matching whose leftovers are exactly the
      rows and columns it does not use, and no admissible pair is left over. */
  lemma LinearAssignmentSound(c: Cost, thresh: real, solver: Solver)
    requires SolverOk(solver)
    ensures var r := LinearAssignment(c, thresh, solver);
      && IsGatedMatching(c, thresh, r.matches)
      && (forall i: nat :: i in r.rows <==> i < c.rows && !RowUsed(r.matches, i))
      && (forall j: nat :: j in r.cols <==> j < c.cols && !ColUsed(r.matches, j))
      && (forall i, j :: i in r.rows && j in r.cols ==> c.at[i][j] > thresh)
  {
    var m := Matches(c, thresh, solver);
    if c.rows != 0 && c.cols != 0 {
      match solver {
        case Scipy(lsa) =>
          assert IsMinimum(Clip(c, thresh), lsa(Clip(c, thresh)));
          KeepGatedIsMatching(c, thresh, lsa(Clip(c, thresh)));
          ScipyIsMaximal(c, thresh, lsa(Clip(c, thresh)));
        case Fallback(argsort) =>
          assert IsSortedOrder(c, argsort(c));
          GreedyIsMatching(c, thresh, argsort(c), {}, {});
          GreedyIsMaximal(c, thresh, argsort(c));
      }
    }
    forall i: nat ensures i in (set p | p in m :: p.0) <==> RowUsed(m, i) {
      if RowUsed(m, i) {
        var k :| 0 <= k < |m| && m[k].0 == i;
        assert m[k] in m;
      }
    }
    forall j: nat ensures j in (set p | p in m :: p.1) <==> ColUsed(m, j) {
      if ColUsed(m, j) {
        var k :| 0 <= k < |m| && m[k].1 == j;
        assert m[k] in m;
      }
    }
  }

  /** A maximal gated matching has at least half the size of any other gated matching. */
  lemma AtLeastHalfOfAny(c: Cost, thresh: real, m: seq<Pair>, other: seq<Pair>)
    requires IsGatedMatching(c, thresh, m) && IsMaximal(c, thresh, m)
    requires IsGatedMatching(c, thresh, other)
    ensures |other| <= 2 * |m|
  {
    var rows, cols := set p | p in m :: p.0, set p | p in m :: p.1;
    ProjectionSizes(m);
    forall k | 0 <= k < |other| ensures other[k].0 in rows || other[k].1 in cols {
      assert RowUsed(m, other[k].0) || ColUsed(m, other[k].1);
      if RowUsed(m, other[k].0) {
        var i :| 0 <= i < |m| && m[i].0 == other[k].0;
        assert m[i] in m;
      } else {
        var i :| 0 <= i < |m| && m[i].1 == other[k].1;
        assert m[i] in m;
      }
    }
    Covered(other, rows, cols);
  }

  lemma ProjectionSizes(m: seq<Pair>)
    ensures |set p | p in m :: p.0| <= |m| && |set p | p in m :: p.1| <= |m|
  {
    if m != [] {
      var n, last := m[..|m| - 1], m[|m| - 1];
      ProjectionSizes(n);
      assert m == n + [last];
      assert (set p | p in m :: p.0) == (set p | p in n :: p.0) + {last.0};
      assert (set p | p in m :: p.1) == (set p | p in n :: p.1) + {last.1};
    }
  }

  lemma {:induction false} Covered(o: seq<Pair>, rows: set<nat>, cols: set<nat>)
    requires Injective(o)
    requires forall k :: 0 <= k < |o| ==> o[k].0 in rows || o[k].1 in cols
    ensures |o| <= |rows| + |cols|
  {
    if o != [] {
      var last := o[|o| - 1];
      if last.0 in rows {
        Covered(o[..|o| - 1], rows - {last.0}, cols);
      } else {
        Covered(o[..|o| - 1], rows, cols - {last.1});
      }
    }
  }

  // ---- the greedy scan ------------------------------------------------------

  ghost predicate Avoids(m: seq<Pair>, usedR: set<nat>, usedC: set<nat>) {
    forall k :: 0 <= k < |m| ==> m[k].0 !in usedR && m[k].1 !in usedC
  }

  lemma Prepended(c: Cost, thresh: real, p: Pair, rest: seq<Pair>, usedR: set<nat>, usedC: set<nat>)
    requires p.0 < c.rows && p.1 < c.cols && c.at[p.0][p.1] <= thresh && p.0 !in usedR && p.1 !in usedC
    requires IsGatedMatching(c, thresh, rest) && Avoids(rest, usedR + {p.0}, usedC + {p.1})
    ensures IsGatedMatching(c, thresh, [p] + rest) && Avoids([p] + rest, usedR, usedC)
  {}

  lemma NothingMatched(c: Cost, thresh: real, usedR: set<nat>, usedC: set<nat>)
    ensures IsGatedMatching(c, thresh, []) && Avoids([], usedR, usedC)
  {}

  lemma {:induction false} GreedyIsMatching(c: Cost, thresh: real, order: seq<Pair>, usedR: set<nat>, usedC: set<nat>)
    requires InRange(c, order)
    ensures var m := GreedyFrom(c, thresh, order, usedR, usedC);
      IsGatedMatching(c, thresh, m) && Avoids(m, usedR, usedC)
  {
    hide IsGatedMatching, Avoids;
    NothingMatched(c, thresh, usedR, usedC);
    if order != [] {
      var (r, q) := order[0];
      if c.at[r][q] <= thresh {
        if r in usedR || q in usedC {
          GreedyIsMatching(c, thresh, order[1..], usedR, usedC);
        } else {
          var rest := GreedyFrom(c, thresh, order[1..], usedR + {r}, usedC + {q});
          GreedyIsMatching(c, thresh, order[1..], usedR + {r}, usedC + {q});
          Prepended(c, thresh, (r, q), rest, usedR, usedC);
        }
      }
    }
  }

  /** The cell at position `k` of a sorted order is taken, or blocked by a taken one. */
  lemma {:induction false} GreedyTakesOrBlocks(c: Cost, thresh: real, order: seq<Pair>, usedR: set<nat>,
                                               usedC: set<nat>, k: nat)
    requires InRange(c, order) && k < |order|
    requires forall j :: 0 <= j <= k ==> c.at[order[j].0][order[j].1] <= thresh
    ensures var m := GreedyFrom(c, thresh, order, usedR, usedC);
      || order[k].0 in usedR || order[k].1 in usedC
      || RowUsed(m, order[k].0) || ColUsed(m, order[k].1)
  {
    var (r, q) := order[0];
    var m := GreedyFrom(c, thresh, order, usedR, usedC);
    if r in usedR || q in usedC {
      if k > 0 {
        GreedyTakesOrBlocks(c, thresh, order[1..], usedR, usedC, k - 1);
      }
    } else {
      assert m[0] == (r, q);
      if k > 0 {
        var rest := GreedyFrom(c, thresh, order[1..], usedR + {r}, usedC + {q});
        GreedyTakesOrBlocks(c, thresh, order[1..], usedR + {r}, usedC + {q}, k - 1);
        assert m[1..] == rest;
        if RowUsed(rest, order[k].0) {
          var i :| 0 <= i < |rest| && rest[i].0 == order[k].0;
          assert m[i + 1].0 == order[k].0;
        } else if ColUsed(rest, order[k].1) {
          var i :| 0 <= i < |rest| && rest[i].1 == order[k].1;
          assert m[i + 1].1 == order[k].1;
        }
      }
    }
  }

  lemma GreedyIsMaximal(c: Cost, thresh: real, order: seq<Pair>)
    requires IsSortedOrder(c, order)
    ensures IsMaximal(c, thresh, GreedyFrom(c, thresh, order, {}, {}))
  {
    var m := GreedyFrom(c, thresh, order, {}, {});
    forall r: nat, q: nat | r < c.rows && q < c.cols && c.at[r][q] <= thresh
      ensures RowUsed(m, r) || ColUsed(m, q)
    {
      assert (r, q) in order;
      var k :| 0 <= k < |order| && order[k] == (r, q);
      GreedyTakesOrBlocks(c, thresh, order, {}, {}, k);
    }
  }

  // ---- the clipped optimum --------------------------------------------------

  lemma {:induction false} KeepGatedIsMatching(c: Cost, thresh: real, m: seq<Pair>)
    requires IsMatching(c, m)
    ensures IsGatedMatching(c, thresh, KeepGated(c, thresh, m))
    ensures forall p :: p in KeepGated(c, thresh, m) ==> p in m
  {
    if m != [] {
      var n := m[..|m| - 1];
      KeepGatedIsMatching(c, thresh, n);
      var kept := KeepGated(c, thresh, n);
      forall k | 0 <= k < |kept| ensures kept[k].0 != m[|m| - 1].0 && kept[k].1 != m[|m| - 1].1 {
        assert kept[k] in n;
      }
    }
  }

  /** How much below the ceiling the pairs of `m` are, in all. */
  ghost function Gain(c: Cost, thresh: real, m: seq<Pair>): real
    requires InRange(c, m)
  {
    if m == [] then 0.0
    else Gain(c, thresh, m[..|m| - 1]) + (Ceiling(thresh) - c.at[m[|m| - 1].0][m[|m| - 1].1])
  }

  ghost function Ceilings(n: nat, thresh: real): real { n as real * Ceiling(thresh) }

  lemma {:induction false} GainComplementsTotal(c: Cost, thresh: real, m: seq<Pair>)
    requires InRange(c, m)
    ensures Gain(c, thresh, m) + Total(c, m) == Ceilings(|m|, thresh)
  {
    if m != [] {
      GainComplementsTotal(c, thresh, m[..|m| - 1]);
      var n := (|m| - 1) as real;
      assert |m| as real == n + 1.0;
      assert (n + 1.0) * Ceiling(thresh) == n * Ceiling(thresh) + Ceiling(thresh);
    }
  }

  lemma {:induction false} GainIgnoresClipped(c: Cost, clipped: Cost, thresh: real, m: seq<Pair>)
    requires clipped == Clip(c, thresh)
    requires IsMatching(c, m)
    ensures InRange(c, KeepGated(c, thresh, m))
    ensures Gain(clipped, thresh, m) == Gain(c, thresh, KeepGated(c, thresh, m))
  {
    KeptInRange(c, thresh, m);
    if m != [] {
      var n, last := m[..|m| - 1], m[|m| - 1];
      hide IsMatching, KeepGated, Gain, Clip;
      MatchingPart(c, m);
      GainIgnoresClipped(c, clipped, thresh, n);
      KeptOneMore(c, thresh, m);
      GainOneMore(c, clipped, thresh, m);
      if c.at[last.0][last.1] <= thresh {
        GainSnoc(c, thresh, KeepGated(c, thresh, n), last);
      }
    }
  }

  lemma KeptInRange(c: Cost, thresh: real, m: seq<Pair>)
    requires IsMatching(c, m)
    ensures InRange(c, m) && InRange(c, KeepGated(c, thresh, m))
  {
    hide KeepGated;
    KeepGatedIsMatching(c, thresh, m);
  }

  lemma MatchingPart(c: Cost, m: seq<Pair>)
    requires IsMatching(c, m) && m != []
    ensures IsMatching(c, m[..|m| - 1]) && InRange(c, m[..|m| - 1])
    ensures m[|m| - 1].0 < c.rows && m[|m| - 1].1 < c.cols
  {}

  lemma KeptOneMore(c: Cost, thresh: real, m: seq<Pair>)
    requires InRange(c, m) && m != []
    ensures var n, last := m[..|m| - 1], m[|m| - 1];
      KeepGated(c, thresh, m)
      == if c.at[last.0][last.1] <= thresh then KeepGated(c, thresh, n) + [last] else KeepGated(c, thresh, n)
  {}

  /** A pair above the gate gains nothing once clipped, any other one as much as before. */
  lemma GainOneMore(c: Cost, clipped: Cost, thresh: real, m: seq<Pair>)
    requires InRange(c, m) && m != [] && clipped == Clip(c, thresh)
    ensures InRange(clipped, m)
    ensures var n, cost := m[..|m| - 1], c.at[m[|m| - 1].0][m[|m| - 1].1];
      Gain(clipped, thresh, m) == Gain(clipped, thresh, n) + if cost <= thresh then Ceiling(thresh) - cost else 0.0
  {}

  lemma GainSnoc(c: Cost, thresh: real, m: seq<Pair>, p: Pair)
    requires InRange(c, m) && p.0 < c.rows && p.1 < c.cols
    ensures InRange(c, m + [p])
    ensures Gain(c, thresh, m + [p]) == Gain(c, thresh, m) + (Ceiling(thresh) - c.at[p.0][p.1])
  {
    assert (m + [p])[..|m|] == m;
  }

  function UpTo(n: nat): (s: set<nat>)
    ensures forall x: int :: x in s <==> 0 <= x < n
    ensures |s| == n
  {
    if n == 0 then {} else UpTo(n - 1) + {n - 1}
  }

  function Elements<T(!new,==)>(s: seq<T>): (e: set<T>)
    ensures forall x :: x in e <==> x in s
    ensures |e| <= |s|
  {
    if s == [] then {} else Elements(s[..|s| - 1]) + {s[|s| - 1]}
  }

  lemma FreeElement(n: nat, used: seq<nat>)
    requires |used| < n
    ensures exists x: nat :: x < n && x !in used
  {
    if forall x: nat :: x < n ==> x in used {
      SubsetSize(UpTo(n), Elements(used));
      assert false;
    }
  }

  lemma SubsetSize<T>(a: set<T>, b: set<T>)
    requires a <= b
    ensures |a| <= |b|
  {
    if a != {} {
      var x :| x in a;
      SubsetSize(a - {x}, b - {x});
    }
  }

  lemma FreePair(c: Cost, m: seq<Pair>) returns (p: Pair)
    requires IsMatching(c, m) && |m| < c.rows && |m| < c.cols
    ensures IsMatching(c, m + [p])
  {
    var rs := seq(|m|, k requires 0 <= k < |m| => m[k].0);
    var qs := seq(|m|, k requires 0 <= k < |m| => m[k].1);
    FreeElement(c.rows, rs);
    FreeElement(c.cols, qs);
    var r: nat :| r < c.rows && r !in rs;
    var q: nat :| q < c.cols && q !in qs;
    forall k | 0 <= k < |m| ensures m[k].0 != r && m[k].1 != q {
      assert rs[k] in rs && qs[k] in qs;
    }
    p := (r, q);
  }

  /** Any matching extends to a complete one without losing gain. */
  lemma {:induction false} Completion(clipped: Cost, thresh: real, m: seq<Pair>) returns (full: seq<Pair>)
    requires forall i, j :: 0 <= i < clipped.rows && 0 <= j < clipped.cols ==> clipped.at[i][j] <= Ceiling(thresh)
    requires IsMatching(clipped, m) && |m| <= Min(clipped.rows, clipped.cols)
    ensures IsComplete(clipped, full)
    ensures Gain(clipped, thresh, m) <= Gain(clipped, thresh, full)
    decreases Min(clipped.rows, clipped.cols) - |m|
  {
    if |m| == Min(clipped.rows, clipped.cols) {
      full := m;
    } else {
      var p := FreePair(clipped, m);
      assert (m + [p])[..|m|] == m;
      full := Completion(clipped, thresh, m + [p]);
    }
  }

  lemma CheapestGainsMost(c: Cost, thresh: real, best: seq<Pair>, other: seq<Pair>)
    requires IsMinimum(c, best) && IsComplete(c, other)
    ensures Gain(c, thresh, other) <= Gain(c, thresh, best)
  {
    assert |best| == |other| && Total(c, best) <= Total(c, other);
    hide Gain, Total, Ceilings, IsMinimum;
    GainComplementsTotal(c, thresh, best);
    GainComplementsTotal(c, thresh, other);
  }

  lemma MatchingSize(c: Cost, m: seq<Pair>)
    requires IsMatching(c, m)
    ensures |m| <= Min(c.rows, c.cols)
  {
    Covered(m, UpTo(c.rows), {});
    Covered(m, {}, UpTo(c.cols));
  }

  /** What the pairs of `m` are worth: each the distance of its cost below the gate, plus 0.0001. */
  ghost function Worth(c: Cost, thresh: real, m: seq<Pair>): real
    requires InRange(c, m)
  {
    if m == [] then 0.0
    else Worth(c, thresh, m[..|m| - 1]) + (thresh - c.at[m[|m| - 1].0][m[|m| - 1].1]) + 0.0001
  }

  lemma {:induction false} WorthIsGain(c: Cost, thresh: real, m: seq<Pair>)
    requires InRange(c, m)
    ensures Worth(c, thresh, m) == Gain(c, thresh, m)
  {
    if m != [] {
      WorthIsGain(c, thresh, m[..|m| - 1]);
    }
  }

  /** Clipping above-gate costs before solving makes the filtered solution a gated matching worth
      the most. */
  lemma ScipyIsBest(c: Cost, thresh: real, sol: seq<Pair>, other: seq<Pair>)
    requires IsMinimum(Clip(c, thresh), sol)
    requires IsGatedMatching(c, thresh, other)
    ensures InRange(c, KeepGated(c, thresh, sol))
    ensures Worth(c, thresh, other) <= Worth(c, thresh, KeepGated(c, thresh, sol))
  {
    ClippedMatchings(c, thresh, sol, other);
    hide Gain, Worth, Total, KeepGated, IsMinimum, IsGatedMatching, IsComplete, IsMatching, InRange, Clip;
    var clipped := Clip(c, thresh);
    GainIgnoresClipped(c, clipped, thresh, sol);
    GainIgnoresClipped(c, clipped, thresh, other);
    AllGatedKept(c, thresh, other);
    MatchingSize(clipped, other);
    var full := Completion(clipped, thresh, other);
    CheapestGainsMost(clipped, thresh, sol, full);
    WorthIsGain(c, thresh, other);
    WorthIsGain(c, thresh, KeepGated(c, thresh, sol));
  }

  /** Clipping keeps the shape, and no clipped cost is above the ceiling. */
  lemma ClippedMatchings(c: Cost, thresh: real, sol: seq<Pair>, other: seq<Pair>)
    requires IsMinimum(Clip(c, thresh), sol) && IsGatedMatching(c, thresh, other)
    ensures IsMatching(c, sol) && IsMatching(c, other) && IsMatching(Clip(c, thresh), other)
    ensures var d := Clip(c, thresh);
      d.rows == c.rows && d.cols == c.cols
      && forall i, j :: 0 <= i < d.rows && 0 <= j < d.cols ==> d.at[i][j] <= Ceiling(thresh)
  {
    hide Total;
  }

  lemma {:induction false} AllGatedKept(c: Cost, thresh: real, m: seq<Pair>)
    requires IsGatedMatching(c, thresh, m)
    ensures KeepGated(c, thresh, m) == m
  {
    if m != [] {
      var n := m[..|m| - 1];
      GatedPart(c, thresh, m);
      hide IsGatedMatching;
      AllGatedKept(c, thresh, n);
    }
  }

  lemma GatedPart(c: Cost, thresh: real, m: seq<Pair>)
    requires IsGatedMatching(c, thresh, m) && m != []
    ensures IsGatedMatching(c, thresh, m[..|m| - 1]) && c.at[m[|m| - 1].0][m[|m| - 1].1] <= thresh
    ensures m[..|m| - 1] + [m[|m| - 1]] == m
  {}

  lemma ScipyIsMaximal(c: Cost, thresh: real, sol: seq<Pair>)
    requires IsMinimum(Clip(c, thresh), sol)
    ensures InRange(c, sol) && IsMaximal(c, thresh, KeepGated(c, thresh, sol))
  {
    var m := KeepGated(c, thresh, sol);
    KeepGatedIsMatching(c, thresh, sol);
    forall r: nat, q: nat | r < c.rows && q < c.cols && c.at[r][q] <= thresh
      ensures RowUsed(m, r) || ColUsed(m, q)
    {
      if !RowUsed(m, r) && !ColUsed(m, q) {
        var bigger := m + [(r, q)];
        assert bigger[..|m|] == m;
        assert IsGatedMatching(c, thresh, bigger);
        ScipyIsBest(c, thresh, sol, bigger);
        assert false;
      }
    }
  }
}
