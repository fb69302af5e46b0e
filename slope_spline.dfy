/**
 * The bivariate quadratic B-spline behind StreetVertex.slopeSpeedCoefficient: a calibrated
 * multiplier of a street segment's length as a function of its slope and altitude. The knot
 * vectors and the 28 coefficients are the source's tables; the basis rows are built with the
 * de Boor recursion of FITPACK's fpbspl, as the source does, in arrays updated in place.
 */
module SlopeSpline {

  /** Knots in the altitude direction, in metres. */
  const TX: seq<real> := [0.0, 0.0, 0.0, 2798.7785324442748, 5000.0, 5000.0, 5000.0]

  /**
   * Knots in the slope direction. The outer knots are written 3.4999999999999998E-01 in the
   * source: the shortest decimal of the binary64 value nearest 0.35, the same value as the
   * slope clamp's 0.35, so both are 0.35 here.
   */
  const TY: seq<real> := [-0.35, -0.35, -0.35, -0.072695627831828688, -0.0024945814335295903,
                          0.053500304527448035, 0.12191105175593375, 0.35, 0.35, 0.35]

  /** Spline coefficients, row-major: index lx * 7 + ly for altitude interval lx, slope interval ly. */
  const COEFF: seq<real> := [
    4.3843513168660255, 3.6904323727375652, 1.6791850199667697, 0.55077866957024113,
    0.17977766419113900, 0.080906832222762959, 0.060239305785343762, 4.6782343053423814,
    3.9250580214736304, 1.7924585866601270, 0.53426170441723031, 0.18787442260720733,
    0.074706427576152687, 0.062201805553147201, 5.3131908923568787, 4.4703901299120750,
    2.0085381385545351, 0.54611063530784010, 0.18034042959223889, 0.081456939988273691,
    0.059806795955995307, 5.6384893192212662, 4.7732222200176633, 2.1021485412233019,
    0.57862890496126462, 0.16358571778476885, 0.094846184210137130, 0.055464612133430242]

  /** Number of knots (nx, ny) and degree (kx, ky) in each direction. */
  const NX: int := 7
  const NY: int := 10
  const KX: nat := 2
  const KY: nat := 2

  /** Length of the scratch arrays h, hh, w_x and w_y. */
  const SCRATCH: nat := 25

  /** Sum of a sequence of reals. */
  function Sum(s: seq<real>): real {
    if |s| == 0 then 0.0 else Sum(s[..|s| - 1]) + s[|s| - 1]
  }

  /**
   * Where the knot search stops: starting at `first`, it moves right while v >= t[l] and
   * l has not reached `last`.
   */
  function KnotSpan(t: seq<real>, first: int, last: int, v: real): (l: int)
    requires 0 <= first <= last < |t|
    ensures first <= l <= last
    ensures forall m :: first <= m < l ==> t[m] <= v
    ensures l == last || v < t[l]
    decreases last - first
  {
    if v < t[first] || first == last then first else KnotSpan(t, first + 1, last, v)
  }

  /**
   * The parts of a basis value x on the knot interval [lo, hi) that go to the left and to the
   * right neighbour when the degree is raised at v: the source's f = x / (hi - lo) times
   * hi - v and v - lo.
   */
  function LeftShare(x: real, hi: real, lo: real, v: real): real
    requires hi != lo
  {
    x / (hi - lo) * (hi - v)
  }

  function RightShare(x: real, hi: real, lo: real, v: real): real
    requires hi != lo
  {
    x / (hi - lo) * (v - lo)
  }

  /**
   * Iteration i of the inner loop of pass j on the row g, with hh the row saved at the start of
   * the pass. On equal knots the source clears h[i] (written h[i + 1 - 1]) and leaves h[i + 1]
   * as it was.
   */
  function InnerStep(t: seq<real>, l: int, v: real, j: nat, hh: seq<real>, g: seq<real>, i: nat): (h: seq<real>)
    requires i < j && |hh| == j && |g| == j + 1
    requires j <= l && l + j <= |t|
    ensures |h| == j + 1
  {
    var hi, lo := t[l + i], t[l + i - j];
    if hi != lo then g[i := g[i] + LeftShare(hh[i], hi, lo, v)][i + 1 := RightShare(hh[i], hi, lo, v)]
    else g[i := 0.0]
  }

  /** The row h[0..j] after the first i iterations of the inner loop of pass j, from `start`. */
  function InnerLoop(t: seq<real>, l: int, v: real, j: nat, hh: seq<real>, start: seq<real>, i: nat): (h: seq<real>)
    requires i <= j && |hh| == j && |start| == j + 1
    requires j <= l && l + j <= |t|
    ensures |h| == j + 1
  {
    if i == 0 then start
    else InnerStep(t, l, v, j, hh, InnerLoop(t, l, v, j, hh, start, i - 1), i - 1)
  }

  /**
   * The basis row h[0..j] at v after passes 1..j, for knot interval l. `init` is what the array h
   * held before the computation began: pass j starts with h[0] cleared, h[1..j-1] from pass
   * j - 1 and h[j] still holding init[j].
   */
  function Basis(t: seq<real>, l: int, v: real, j: nat, init: seq<real>): (h: seq<real>)
    requires j <= l && l + j <= |t| && j < |init|
    ensures |h| == j + 1
  {
    if j == 0 then [1.0]
    else
      var hh := Basis(t, l, v, j - 1, init);
      InnerLoop(t, l, v, j, hh, [0.0] + hh[1..] + [init[j]], j)
  }

  /** One product coeff[k] * w_x[i1] * w_y[j1] of the tensor sum. */
  function Term(ck: real, wxi: real, wyj: real): real {
    ck * wxi * wyj
  }

  /** Sum over j1 < n of c[base + j1] * hi * wy[j1], added left to right. */
  function RowSum(c: seq<real>, base: int, hi: real, wy: seq<real>, n: nat): real
    requires 0 <= base && base + n <= |c| && n <= |wy|
  {
    if n == 0 then 0.0 else RowSum(c, base, hi, wy, n - 1) + Term(c[base + n - 1], hi, wy[n - 1])
  }

  /** Sum over i1 < m of the rows for wx[i1], row i1 starting at base + 7 * i1. */
  function TensorSum(c: seq<real>, base: int, wx: seq<real>, wy: seq<real>, m: nat, n: nat): real
    requires 0 <= base && m <= |wx| && n <= |wy|
    requires m > 0 ==> base + (m - 1) * 7 + n <= |c|
  {
    if m == 0 then 0.0
    else TensorSum(c, base, wx, wy, m - 1, n) + RowSum(c, base + (m - 1) * 7, wx[m - 1], wy, n)
  }

  /** Iteration i of pass j on knot interval l divides by a nonzero knot difference. */
  predicate DistinctKnots(t: seq<real>, l: int, j: nat, i: nat)
    requires i < j <= l && l + j <= |t|
  {
    t[l + i] != t[l + i - j]
  }

  /** Pass j on knot interval l meets distinct knots in every iteration, so it never clears an entry. */
  predicate PassSeparated(t: seq<real>, l: int, j: nat)
    requires j <= l && l + j <= |t|
  {
    forall i :: 0 <= i < j ==> DistinctKnots(t, l, j, i)
  }

  /** Every pass 1..k of the recursion for knot interval l meets distinct knots. */
  predicate Separated(t: seq<real>, l: int, k: nat)
    requires k <= l && l + k <= |t|
  {
    forall j :: 1 <= j <= k ==> PassSeparated(t, l, j)
  }

  /** The left and right shares of hh[i] in iteration i of pass j. */
  function LeftAt(t: seq<real>, l: int, v: real, j: nat, hh: seq<real>, i: nat): real
    requires i < j && |hh| == j && j <= l && l + j <= |t| && DistinctKnots(t, l, j, i)
  {
    LeftShare(hh[i], t[l + i], t[l + i - j], v)
  }

  function RightAt(t: seq<real>, l: int, v: real, j: nat, hh: seq<real>, i: nat): real
    requires i < j && |hh| == j && j <= l && l + j <= |t| && DistinctKnots(t, l, j, i)
  {
    RightShare(hh[i], t[l + i], t[l + i - j], v)
  }

  /** What entry m of pass j receives from hh[m - 1]: its right share, none for m = 0. */
  function Carry(t: seq<real>, l: int, v: real, j: nat, hh: seq<real>, m: nat): real
    requires 1 <= j && m <= j && |hh| == j && j <= l && l + j <= |t|
    requires PassSeparated(t, l, j)
  {
    if m == 0 then 0.0 else RightAt(t, l, v, j, hh, m - 1)
  }

  /**
   * Entry m of the degree-j row in the Cox-de Boor recursion, from the degree-(j - 1) row hh:
   * the right share of hh[m - 1] plus the left share of hh[m].
   */
  function DeBoorEntry(t: seq<real>, l: int, v: real, j: nat, hh: seq<real>, m: nat): real
    requires 1 <= j && m <= j && |hh| == j && j <= l && l + j <= |t|
    requires PassSeparated(t, l, j)
  {
    Carry(t, l, v, j, hh, m) + (if m < j then LeftAt(t, l, v, j, hh, m) else 0.0)
  }

  /** The degree-j row built from the degree-(j - 1) row hh. */
  function DeBoorRow(t: seq<real>, l: int, v: real, j: nat, hh: seq<real>): (h: seq<real>)
    requires 1 <= j && |hh| == j && j <= l && l + j <= |t|
    requires PassSeparated(t, l, j)
    ensures |h| == j + 1
    ensures forall m :: 0 <= m <= j ==> h[m] == DeBoorEntry(t, l, v, j, hh, m)
  {
    seq(j + 1, m requires 0 <= m <= j => DeBoorEntry(t, l, v, j, hh, m))
  }

  /** The textbook Cox-de Boor recursion for the k + 1 nonzero B-splines of degree k at v on knot interval l. */
  function DeBoor(t: seq<real>, l: int, v: real, k: nat): (h: seq<real>)
    requires k <= l && l + k <= |t| && Separated(t, l, k)
    ensures |h| == k + 1
  {
    if k == 0 then [1.0]
    else DeBoorRow(t, l, v, k, DeBoor(t, l, v, k - 1))
  }

  /** The value slopeSpeedCoefficient(slope, altitude) computes, over the reals. */
  function SplineCoefficient(slope: real, altitude: real): real {
    var lx := KnotSpan(TX, 3, 4, altitude);
    var wx := Basis(TX, lx, altitude, 2, [0.0, 0.0, 0.0]);
    var ly := KnotSpan(TY, 3, 7, slope);
    var wy := Basis(TY, ly, slope, 2, wx);
    TensorSum(COEFF, (lx - 3) * 7 + (ly - 3), wx, wy, 3, 3)
  }

  /**
   * The knot search: starting at k + 1, advance l while v >= t[l] and l != n - k - 1.
   * It stops inside [k + 1, n - k - 1], so every later t[l + i] and t[l + i - j] is in bounds.
   */
  method FindSpan(t: seq<real>, k: nat, n: int, v: real) returns (l: int)
    requires n == |t| && k + 1 <= n - k - 1
    ensures k + 1 <= l <= n - k - 1
    ensures l == KnotSpan(t, k + 1, n - k - 1, v)
  {
    var k1 := k + 1;
    var nk1 := n - k1;
    l := k1;
    var l1 := l + 1;
    while v >= t[l1 - 1] && l != nk1
      invariant k1 <= l <= nk1 && l1 == l + 1
      invariant KnotSpan(t, l, nk1, v) == KnotSpan(t, k1, nk1, v)
      decreases nk1 - l
    {
      l := l1;
      l1 := l + 1;
    }
  }

  /**
   * Pass j of the basis recursion, in place: runs the inner loop over i < j on h, reading the
   * row saved in hh. Only h[0..j] changes.
   */
  method RaiseDegree(t: seq<real>, l: int, v: real, j: nat, h: array<real>, hh: array<real>, ghost row: seq<real>, ghost start: seq<real>)
    requires h != hh && 1 <= j < h.Length && j <= hh.Length
    requires j <= l && l + j <= |t|
    requires hh[..j] == row && |start| == j + 1 && h[..j + 1] == start
    modifies h
    ensures h[..j + 1] == InnerLoop(t, l, v, j, row, start, j)
    ensures h[j + 1..] == old(h[j + 1..])
  {
    for i := 0 to j
      invariant h[..j + 1] == InnerLoop(t, l, v, j, row, start, i)
      invariant h[j + 1..] == old(h[j + 1..])
    {
      ghost var g := h[..j + 1];
      var li := l + i;
      var lj := li - j;
      if t[li] != t[lj] {
        assert hh[i] == row[i] && h[i] == g[i];
        var f := hh[i] / (t[li] - t[lj]);
        assert f * (t[li] - v) == LeftShare(row[i], t[l + i], t[l + i - j], v);
        assert f * (v - t[lj]) == RightShare(row[i], t[l + i], t[l + i - j], v);
        h[i] := h[i] + f * (t[li] - v);
        h[i + 1] := f * (v - t[lj]);
        assert h[..j + 1] == InnerStep(t, l, v, j, row, g, i);
      } else {
        h[i + 1 - 1] := 0.0;
        assert h[..j + 1] == InnerStep(t, l, v, j, row, g, i);
      }
    }
  }

  /** Fills h[0..k] in place with the degree-k basis row at v for knot interval l, using hh as scratch. */
  method FillBasis(t: seq<real>, l: int, v: real, k: nat, h: array<real>, hh: array<real>)
    requires h != hh && k < h.Length && k <= hh.Length
    requires k <= l && l + k <= |t|
    modifies h, hh
    ensures h[..k + 1] == Basis(t, l, v, k, old(h[..k + 1]))
    ensures h[k + 1..] == old(h[k + 1..])
  {
    ghost var init := h[..k + 1];
    h[0] := 1.0;
    for j := 1 to k + 1
      invariant h[..j] == Basis(t, l, v, j - 1, init)
      invariant h[j..] == old(h[j..])
    {
      ghost var rest := h[j + 1..];
      assert rest == old(h[j + 1..]);
      CopyRow(h, hh, j);
      ghost var row := h[..j];
      ghost var start := [0.0] + row[1..] + [init[j]];
      h[0] := 0.0;
      assert h[..j + 1] == start && h[j + 1..] == rest;
      RaiseDegree(t, l, v, j, h, hh, row, start);
    }
  }

  /**
   * The closing double loop of slopeSpeedCoefficient: the sum of coeff[l1 + 7 * i1 + j1] *
   * h[i1] * w_y[j1] over i1, j1 < 3, added in the source's order.
   */
  method Accumulate(coeff: seq<real>, h: array<real>, wY: array<real>, l1: int) returns (temp: real)
    requires |coeff| == 28 && 3 <= h.Length && 3 <= wY.Length && 0 <= l1 <= 11
    ensures temp == TensorSum(coeff, l1, h[..3], wY[..3], 3, 3)
  {
    ghost var wx, wy := h[..3], wY[..3];
    var kx1, ky1, nky1 := 3, 3, 7;
    var l := l1;
    temp := 0.0;
    for i1 := 0 to kx1
      invariant l == l1 + 7 * i1
      invariant temp == TensorSum(coeff, l1, wx, wy, i1, 3)
    {
      var l2 := l;
      for j1 := 0 to ky1
        invariant l2 == l + j1
        invariant temp == TensorSum(coeff, l1, wx, wy, i1, 3) + RowSum(coeff, l, wx[i1], wy, j1)
      {
        l2 := l2 + 1;
        temp := temp + coeff[l2 - 1] * h[i1] * wY[j1];
        assert coeff[l2 - 1] * h[i1] * wY[j1] == Term(coeff[l + j1], wx[i1], wy[j1]);
      }
      l := l + nky1;
    }
  }

  /**
   * One direction of slopeSpeedCoefficient: finds the knot interval l of v, fills h[0..k] with
   * the basis row there and copies it into w. Returns l - (k + 1), the interval's offset.
   */
  method DirectionBasis(t: seq<real>, k: nat, n: int, v: real, h: array<real>, hh: array<real>, w: array<real>)
    returns (offset: int)
    requires n == |t| && k + 1 <= n - k - 1
    requires h != hh && h != w && hh != w && k < h.Length && k <= hh.Length && k < w.Length
    modifies h, hh, w
    ensures offset == KnotSpan(t, k + 1, n - k - 1, v) - (k + 1)
    ensures h[..k + 1] == Basis(t, KnotSpan(t, k + 1, n - k - 1, v), v, k, old(h[..k + 1]))
    ensures w[..k + 1] == h[..k + 1]
    ensures h[k + 1..] == old(h[k + 1..]) && w[k + 1..] == old(w[k + 1..])
  {
    var k1 := k + 1;
    var l := FindSpan(t, k, n, v);
    FillBasis(t, l, v, k, h, hh);
    ghost var row := h[..k + 1];
    offset := l - k1;
    for j := 0 to k1
      invariant w[..j] == h[..j] && h[..k + 1] == row
      invariant h[k + 1..] == old(h[k + 1..]) && w[j..] == old(w[j..])
    {
      w[j] := h[j];
    }
  }

  /** slopeSpeedCoefficient: evaluates the spline at (slope, altitude) with scratch arrays. */
  method SlopeSpeedCoefficient(slope: real, altitude: real) returns (temp: real)
    ensures temp == SplineCoefficient(slope, altitude)
  {
    var nx, ny, kx, ky := NX, NY, KX, KY;
    var h := new real[SCRATCH](_ => 0.0);
    var hh := new real[SCRATCH](_ => 0.0);
    var wX := new real[SCRATCH](_ => 0.0);
    var wY := new real[SCRATCH](_ => 0.0);

    var kx1 := kx + 1;
    assert h[..kx + 1] == [0.0, 0.0, 0.0];
    var lx := DirectionBasis(TX, kx, nx, altitude, h, hh, wX);
    ghost var wx := h[..3];
    assert lx == KnotSpan(TX, 3, 4, altitude) - 3;
    assert wx == Basis(TX, KnotSpan(TX, 3, 4, altitude), altitude, 2, [0.0, 0.0, 0.0]);

    var ky1 := ky + 1;
    var nky1 := ny - ky1;
    var ly := DirectionBasis(TY, ky, ny, slope, h, hh, wY);
    ghost var wy := wY[..3];
    assert ly == KnotSpan(TY, 3, 7, slope) - 3;
    assert wy == Basis(TY, KnotSpan(TY, 3, 7, slope), slope, 2, wx);

    var l := lx * nky1;
    CopyRow(wX, h, kx1);
    assert h[..3] == wx && wY[..3] == wy;
    assert lx == 0 || lx == 1;
    temp := Accumulate(COEFF, h, wY, l + ly);
    SplineCoefficientFrom(slope, altitude, lx + 3, wx, ly + 3, wy);
  }

  /** The source's copy loop: dst[0..n) receives src[0..n). */
  method CopyRow(src: array<real>, dst: array<real>, n: nat)
    requires src != dst && n <= src.Length && n <= dst.Length
    modifies dst
    ensures dst[..n] == src[..n]
    ensures dst[n..] == old(dst[n..])
  {
    for i := 0 to n
      invariant dst[..i] == src[..i]
      invariant dst[i..] == old(dst[i..])
    {
      dst[i] := src[i];
    }
  }

  /** SplineCoefficient spelled out from its spans and weight rows. */
  lemma SplineCoefficientFrom(slope: real, altitude: real, lx: int, wx: seq<real>, ly: int, wy: seq<real>)
    requires lx == KnotSpan(TX, 3, 4, altitude) && wx == Basis(TX, lx, altitude, 2, [0.0, 0.0, 0.0])
    requires ly == KnotSpan(TY, 3, 7, slope) && wy == Basis(TY, ly, slope, 2, wx)
    ensures SplineCoefficient(slope, altitude) == TensorSum(COEFF, (lx - 3) * 7 + (ly - 3), wx, wy, 3, 3)
  {
  }

  /**
   * With distinct knots and h[0] cleared, the inner loop after i iterations has produced the
   * final entries below i, holds the right share of hh[i - 1] at i, and has not yet touched
   * the entries above i.
   */
  lemma {:induction false} InnerLoopProgress(t: seq<real>, l: int, v: real, j: nat, hh: seq<real>, start: seq<real>, i: nat)
    requires 1 <= j && i <= j && |hh| == j && |start| == j + 1 && j <= l && l + j <= |t|
    requires PassSeparated(t, l, j)
    requires start[0] == 0.0
    ensures var g := InnerLoop(t, l, v, j, hh, start, i);
            (forall m :: 0 <= m < i ==> g[m] == DeBoorEntry(t, l, v, j, hh, m))
            && g[i] == Carry(t, l, v, j, hh, i)
            && (forall m :: i < m <= j ==> g[m] == start[m])
  {
    if i > 0 {
      var k := i - 1;
      InnerLoopProgress(t, l, v, j, hh, start, k);
      var g := InnerLoop(t, l, v, j, hh, start, k);
      assert DistinctKnots(t, l, j, k);
      var g' := g[k := g[k] + LeftAt(t, l, v, j, hh, k)][i := RightAt(t, l, v, j, hh, k)];
      assert InnerLoop(t, l, v, j, hh, start, i) == g';
      assert g'[k] == DeBoorEntry(t, l, v, j, hh, k);
      assert g'[i] == Carry(t, l, v, j, hh, i);
    }
  }

  /** A full pass of the inner loop computes the next row of the Cox-de Boor recursion. */
  lemma InnerLoopIsDeBoorRow(t: seq<real>, l: int, v: real, j: nat, hh: seq<real>, start: seq<real>)
    requires 1 <= j && |hh| == j && |start| == j + 1 && j <= l && l + j <= |t|
    requires PassSeparated(t, l, j)
    requires start[0] == 0.0
    ensures InnerLoop(t, l, v, j, hh, start, j) == DeBoorRow(t, l, v, j, hh)
  {
    InnerLoopProgress(t, l, v, j, hh, start, j);
  }

  /**
   * On distinct knots the source's row is the Cox-de Boor row: whatever the array h held
   * before (init) is overwritten and does not affect the result.
   */
  lemma {:induction false} BasisIsDeBoor(t: seq<real>, l: int, v: real, k: nat, init: seq<real>)
    requires k <= l && l + k <= |t| && k < |init| && Separated(t, l, k)
    ensures Basis(t, l, v, k, init) == DeBoor(t, l, v, k)
  {
    if k > 0 {
      BasisIsDeBoor(t, l, v, k - 1, init);
      var hh := Basis(t, l, v, k - 1, init);
      InnerLoopIsDeBoorRow(t, l, v, k, hh, [0.0] + hh[1..] + [init[k]]);
    }
  }

  /** The two shares of x add up to x. */
  lemma SharesAddUp(x: real, hi: real, lo: real, v: real)
    requires hi != lo
    ensures LeftShare(x, hi, lo, v) + RightShare(x, hi, lo, v) == x
  {
    var f := x / (hi - lo);
    assert LeftShare(x, hi, lo, v) + RightShare(x, hi, lo, v) == f * (hi - lo);
  }

  /** Between the knots, a nonnegative value splits into nonnegative shares. */
  lemma SharesNonnegative(x: real, hi: real, lo: real, v: real)
    requires lo < hi && lo <= v <= hi && 0.0 <= x
    ensures 0.0 <= LeftShare(x, hi, lo, v) && 0.0 <= RightShare(x, hi, lo, v)
  {
    var f := x / (hi - lo);
    assert 0.0 <= f;
  }

  /** The first m + 1 entries of a Cox-de Boor row add up to the first m entries of hh plus the left share of hh[m]. */
  lemma {:induction false} DeBoorRowPrefixSum(t: seq<real>, l: int, v: real, j: nat, hh: seq<real>, m: nat)
    requires 1 <= j && |hh| == j && j <= l && l + j <= |t| && PassSeparated(t, l, j) && m < j
    ensures Sum(DeBoorRow(t, l, v, j, hh)[..m + 1]) == Sum(hh[..m]) + LeftAt(t, l, v, j, hh, m)
  {
    var row := DeBoorRow(t, l, v, j, hh);
    assert DistinctKnots(t, l, j, m);
    if m == 0 {
      assert row[..1] == [row[0]];
      assert Sum(row[..1]) == Sum(row[..1][..0]) + row[0];
    } else {
      DeBoorRowPrefixSum(t, l, v, j, hh, m - 1);
      assert DistinctKnots(t, l, j, m - 1);
      SharesAddUp(hh[m - 1], t[l + (m - 1)], t[l + (m - 1) - j], v);
      assert row[..m + 1][..m] == row[..m];
      assert hh[..m][..m - 1] == hh[..m - 1];
    }
  }

  /** Raising the degree keeps the total: a Cox-de Boor row adds up to the same as the row it came from. */
  lemma DeBoorRowSum(t: seq<real>, l: int, v: real, j: nat, hh: seq<real>)
    requires 1 <= j && |hh| == j && j <= l && l + j <= |t| && PassSeparated(t, l, j)
    ensures Sum(DeBoorRow(t, l, v, j, hh)) == Sum(hh)
  {
    var row := DeBoorRow(t, l, v, j, hh);
    DeBoorRowPrefixSum(t, l, v, j, hh, j - 1);
    assert DistinctKnots(t, l, j, j - 1);
    SharesAddUp(hh[j - 1], t[l + (j - 1)], t[l + (j - 1) - j], v);
    assert row[..j + 1] == row;
    assert row[..j + 1][..j] == row[..j];
    assert hh[..j] == hh;
    assert hh[..j][..j - 1] == hh[..j - 1];
  }

  /** t is nondecreasing between indices lo and hi (exclusive). */
  predicate SortedBetween(t: seq<real>, lo: int, hi: int)
    requires 0 <= lo <= hi <= |t|
  {
    forall a, b :: lo <= a <= b < hi ==> t[a] <= t[b]
  }

  /** v lies in the closed knot interval [t[l - 1], t[l]], which is not empty, and the knots around it are sorted. */
  predicate InInterval(t: seq<real>, l: int, k: nat, v: real)
  {
    k <= l && l + k <= |t| && 1 <= l < |t| && SortedBetween(t, l - k, l + k) && t[l - 1] < t[l] && t[l - 1] <= v <= t[l]
  }

  /** On sorted knots around a nonempty interval, no pass meets equal knots. */
  lemma IntervalSeparated(t: seq<real>, l: int, k: nat, v: real)
    requires InInterval(t, l, k, v)
    ensures Separated(t, l, k)
  {
    forall j | 1 <= j <= k
      ensures PassSeparated(t, l, j)
    {
      forall i | 0 <= i < j
        ensures DistinctKnots(t, l, j, i)
      {
        assert t[l + i - j] <= t[l - 1] && t[l] <= t[l + i];
      }
    }
  }

  /** Between the knots, raising the degree of a nonnegative row gives a nonnegative row. */
  lemma DeBoorRowNonnegative(t: seq<real>, l: int, v: real, k: nat, hh: seq<real>)
    requires 1 <= k && InInterval(t, l, k, v) && |hh| == k && PassSeparated(t, l, k)
    requires forall m :: 0 <= m < k ==> 0.0 <= hh[m]
    ensures forall m :: 0 <= m <= k ==> 0.0 <= DeBoorRow(t, l, v, k, hh)[m]
  {
    forall m | 0 <= m <= k
      ensures 0.0 <= DeBoorRow(t, l, v, k, hh)[m]
    {
      if 0 < m {
        var i := m - 1;
        assert DistinctKnots(t, l, k, i);
        assert t[l + i - k] <= t[l - 1] && t[l] <= t[l + i];
        SharesNonnegative(hh[i], t[l + i], t[l + i - k], v);
      }
      if m < k {
        assert DistinctKnots(t, l, k, m);
        assert t[l + m - k] <= t[l - 1] && t[l] <= t[l + m];
        SharesNonnegative(hh[m], t[l + m], t[l + m - k], v);
      }
    }
  }

  /** Between the knots, every entry of the Cox-de Boor row of degree k is nonnegative and the row adds up to 1. */
  lemma {:induction false} DeBoorPartitionOfUnity(t: seq<real>, l: int, v: real, k: nat)
    requires InInterval(t, l, k, v)
    ensures Separated(t, l, k)
    ensures Sum(DeBoor(t, l, v, k)) == 1.0
    ensures forall m :: 0 <= m <= k ==> 0.0 <= DeBoor(t, l, v, k)[m]
  {
    IntervalSeparated(t, l, k, v);
    if k == 0 {
      assert Sum([1.0]) == Sum([1.0][..0]) + 1.0;
    } else {
      assert InInterval(t, l, k - 1, v);
      DeBoorPartitionOfUnity(t, l, v, k - 1);
      var hh := DeBoor(t, l, v, k - 1);
      assert PassSeparated(t, l, k);
      DeBoorRowSum(t, l, v, k, hh);
      DeBoorRowNonnegative(t, l, v, k, hh);
    }
  }

  /** A sequence whose neighbours are in order is sorted. */
  lemma {:induction false} NeighboursSorted(t: seq<real>)
    requires forall a :: 0 <= a < |t| - 1 ==> t[a] <= t[a + 1]
    ensures SortedBetween(t, 0, |t|)
    decreases |t|
  {
    if |t| > 1 {
      var u := t[..|t| - 1];
      assert forall a :: 0 <= a < |u| - 1 ==> u[a] <= u[a + 1];
      NeighboursSorted(u);
      forall a, b | 0 <= a <= b < |t|
        ensures t[a] <= t[b]
      {
        if b == |t| - 1 && a < b {
          assert u[a] <= u[|u| - 1];
        } else if a < b {
          assert u[a] <= u[b];
        }
      }
    }
  }

  /** Both knot vectors are sorted. */
  lemma KnotsSorted()
    ensures SortedBetween(TX, 0, |TX|) && SortedBetween(TY, 0, |TY|)
  {
    NeighboursSorted(TX);
    NeighboursSorted(TY);
  }

  /** For altitudes between 0 and 5000 m, the knot search lands on an interval that holds the altitude. */
  lemma AltitudeInInterval(altitude: real)
    requires 0.0 <= altitude <= 5000.0
    ensures InInterval(TX, KnotSpan(TX, 3, 4, altitude), 2, altitude)
  {
    KnotsSorted();
  }

  /** For slopes between -0.35 and 0.35, the knot search lands on an interval that holds the slope. */
  lemma SlopeInInterval(slope: real)
    requires -0.35 <= slope <= 0.35
    ensures InInterval(TY, KnotSpan(TY, 3, 7, slope), 2, slope)
  {
    KnotsSorted();
    var l := KnotSpan(TY, 3, 7, slope);
    assert l == 3 || l == 4 || l == 5 || l == 6 || l == 7;
  }

  /** Smallest and largest spline coefficient. */
  const COEFF_MIN: real := 0.055464612133430242
  const COEFF_MAX: real := 5.6384893192212662

  lemma CoefficientRange()
    ensures forall k :: 0 <= k < |COEFF| ==> COEFF_MIN <= COEFF[k] <= COEFF_MAX
  {
  }

  /**
   * Inside the calibrated range, the two weight rows the spline combines are nonnegative and
   * each adds up to 1, whatever the scratch array held before.
   */
  lemma SplineWeights(slope: real, altitude: real)
    requires -0.35 <= slope <= 0.35 && 0.0 <= altitude <= 5000.0
    ensures var wx := Basis(TX, KnotSpan(TX, 3, 4, altitude), altitude, 2, [0.0, 0.0, 0.0]);
            var wy := Basis(TY, KnotSpan(TY, 3, 7, slope), slope, 2, wx);
            Sum(wx) == 1.0 && Sum(wy) == 1.0
            && (forall m :: 0 <= m < 3 ==> 0.0 <= wx[m] && 0.0 <= wy[m])
  {
    var lx := KnotSpan(TX, 3, 4, altitude);
    var ly := KnotSpan(TY, 3, 7, slope);
    AltitudeInInterval(altitude);
    SlopeInInterval(slope);
    DeBoorPartitionOfUnity(TX, lx, altitude, 2);
    DeBoorPartitionOfUnity(TY, ly, slope, 2);
    BasisIsDeBoor(TX, lx, altitude, 2, [0.0, 0.0, 0.0]);
    var wx := Basis(TX, lx, altitude, 2, [0.0, 0.0, 0.0]);
    BasisIsDeBoor(TY, ly, slope, 2, wx);
  }

  /** Scaling a product distributes over a sum in its first factor. */
  lemma Distribute(k: real, x: real, w: real, y: real)
    ensures k * ((x + w) * y) == k * (x * y) + k * (w * y)
  {
  }

  /** Each row of the tensor sum is at most the largest coefficient times hi times the row's weight. */
  lemma {:induction false} RowSumUpper(c: seq<real>, base: int, hi: real, wy: seq<real>, n: nat, up: real)
    requires 0 <= base && base + n <= |c| && n <= |wy|
    requires 0.0 <= hi && (forall k :: 0 <= k < n ==> 0.0 <= wy[k])
    requires forall k :: 0 <= k < |c| ==> c[k] <= up
    ensures RowSum(c, base, hi, wy, n) <= up * (hi * Sum(wy[..n]))
  {
    if n > 0 {
      RowSumUpper(c, base, hi, wy, n - 1, up);
      assert wy[..n][..n - 1] == wy[..n - 1];
      var s := Sum(wy[..n - 1]);
      assert Term(c[base + n - 1], hi, wy[n - 1]) <= up * (hi * wy[n - 1]) by {
        assert (up - c[base + n - 1]) * (hi * wy[n - 1]) >= 0.0;
      }
      assert up * (hi * Sum(wy[..n])) == up * (hi * s) + up * (hi * wy[n - 1]);
    }
  }

  /** Each row of the tensor sum is at least the smallest coefficient times hi times the row's weight. */
  lemma {:induction false} RowSumLower(c: seq<real>, base: int, hi: real, wy: seq<real>, n: nat, lo: real)
    requires 0 <= base && base + n <= |c| && n <= |wy|
    requires 0.0 <= hi && (forall k :: 0 <= k < n ==> 0.0 <= wy[k])
    requires forall k :: 0 <= k < |c| ==> lo <= c[k]
    ensures lo * (hi * Sum(wy[..n])) <= RowSum(c, base, hi, wy, n)
  {
    if n > 0 {
      RowSumLower(c, base, hi, wy, n - 1, lo);
      assert wy[..n][..n - 1] == wy[..n - 1];
      var s := Sum(wy[..n - 1]);
      assert lo * (hi * wy[n - 1]) <= Term(c[base + n - 1], hi, wy[n - 1]) by {
        assert (c[base + n - 1] - lo) * (hi * wy[n - 1]) >= 0.0;
      }
      assert lo * (hi * Sum(wy[..n])) == lo * (hi * s) + lo * (hi * wy[n - 1]);
    }
  }

  /** The tensor sum is at most the largest coefficient times the product of the two weight totals. */
  lemma {:induction false} TensorSumUpper(c: seq<real>, base: int, wx: seq<real>, wy: seq<real>, m: nat, n: nat, up: real)
    requires 0 <= base && m <= |wx| && n <= |wy|
    requires m > 0 ==> base + (m - 1) * 7 + n <= |c|
    requires (forall k :: 0 <= k < m ==> 0.0 <= wx[k]) && (forall k :: 0 <= k < n ==> 0.0 <= wy[k])
    requires forall k :: 0 <= k < |c| ==> c[k] <= up
    ensures TensorSum(c, base, wx, wy, m, n) <= up * (Sum(wx[..m]) * Sum(wy[..n]))
  {
    if m > 0 {
      if m > 1 {
        assert base + (m - 2) * 7 + n <= |c|;
      }
      TensorSumUpper(c, base, wx, wy, m - 1, n, up);
      RowSumUpper(c, base + (m - 1) * 7, wx[m - 1], wy, n, up);
      assert wx[..m][..m - 1] == wx[..m - 1];
      assert Sum(wx[..m]) == Sum(wx[..m - 1]) + wx[m - 1];
      Distribute(up, Sum(wx[..m - 1]), wx[m - 1], Sum(wy[..n]));
    }
  }

  /** The tensor sum is at least the smallest coefficient times the product of the two weight totals. */
  lemma {:induction false} TensorSumLower(c: seq<real>, base: int, wx: seq<real>, wy: seq<real>, m: nat, n: nat, lo: real)
    requires 0 <= base && m <= |wx| && n <= |wy|
    requires m > 0 ==> base + (m - 1) * 7 + n <= |c|
    requires (forall k :: 0 <= k < m ==> 0.0 <= wx[k]) && (forall k :: 0 <= k < n ==> 0.0 <= wy[k])
    requires forall k :: 0 <= k < |c| ==> lo <= c[k]
    ensures lo * (Sum(wx[..m]) * Sum(wy[..n])) <= TensorSum(c, base, wx, wy, m, n)
  {
    if m > 0 {
      if m > 1 {
        assert base + (m - 2) * 7 + n <= |c|;
      }
      TensorSumLower(c, base, wx, wy, m - 1, n, lo);
      RowSumLower(c, base + (m - 1) * 7, wx[m - 1], wy, n, lo);
      assert wx[..m][..m - 1] == wx[..m - 1];
      assert Sum(wx[..m]) == Sum(wx[..m - 1]) + wx[m - 1];
      Distribute(lo, Sum(wx[..m - 1]), wx[m - 1], Sum(wy[..n]));
    }
  }

  /** With nonnegative weights adding up to 1 on both sides, the 3 x 3 tensor sum lies between lo and up. */
  lemma ConvexTensorSum(c: seq<real>, base: int, wx: seq<real>, wy: seq<real>, lo: real, up: real)
    requires 0 <= base && base + 17 <= |c| && |wx| == 3 && |wy| == 3
    requires Sum(wx) == 1.0 && Sum(wy) == 1.0
    requires (forall k :: 0 <= k < 3 ==> 0.0 <= wx[k]) && (forall k :: 0 <= k < 3 ==> 0.0 <= wy[k])
    requires forall k :: 0 <= k < |c| ==> lo <= c[k] <= up
    ensures lo <= TensorSum(c, base, wx, wy, 3, 3) <= up
  {
    assert wx[..3] == wx && wy[..3] == wy;
    TensorSumLower(c, base, wx, wy, 3, 3, lo);
    TensorSumUpper(c, base, wx, wy, 3, 3, up);
  }

  /**
   * For slopes within the clamp and altitudes between 0 and 5000 m the spline is a convex
   * combination of its coefficients, so the speed coefficient stays between the smallest and
   * the largest of them (about 0.055 and 5.64).
   */
  lemma SplineCoefficientBounds(slope: real, altitude: real)
    requires -0.35 <= slope <= 0.35 && 0.0 <= altitude <= 5000.0
    ensures COEFF_MIN <= SplineCoefficient(slope, altitude) <= COEFF_MAX
  {
    var lx := KnotSpan(TX, 3, 4, altitude);
    var wx := Basis(TX, lx, altitude, 2, [0.0, 0.0, 0.0]);
    var ly := KnotSpan(TY, 3, 7, slope);
    var wy := Basis(TY, ly, slope, 2, wx);
    SplineWeights(slope, altitude);
    CoefficientRange();
    ConvexTensorSum(COEFF, (lx - 3) * 7 + (ly - 3), wx, wy, COEFF_MIN, COEFF_MAX);
  }
}
