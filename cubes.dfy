/** The per-patch numpy arrays of the framework: a patch's cells form a 3-D array
    indexed `[i][j][k]`, modelled as nested sequences.  This module holds the
    elementwise array operations the core uses (multiplying by a 0/1 mask, by a
    scalar, XOR of boolean arrays) and the sums (`array.sum()` and the sum over the
    list of patches), with the facts about those sums the reductions rely on. */
module Cubes {

  type Cube<T> = seq<seq<seq<T>>>

  /** `c` is an `nx × ny × nz` array. */
  predicate HasShape<T>(c: Cube<T>, nx: nat, ny: nat, nz: nat)
  {
    |c| == nx &&
    forall i :: 0 <= i < nx ==> |c[i]| == ny && forall j :: 0 <= j < ny ==> |c[i][j]| == nz
  }

  /** `a` and `b` can be combined elementwise: every row has the same length. */
  predicate SameShape<A, B>(a: Cube<A>, b: Cube<B>)
  {
    |a| == |b| &&
    forall i :: 0 <= i < |a| ==> |a[i]| == |b[i]| && forall j :: 0 <= j < |a[i]| ==> |a[i][j]| == |b[i][j]|
  }

  lemma SameShapeTransitive<A, B, C>(a: Cube<A>, b: Cube<B>, c: Cube<C>)
    requires SameShape(a, b) && SameShape(b, c)
    ensures SameShape(a, c)
  {
  }

  lemma SameShapeSymmetric<A, B>(a: Cube<A>, b: Cube<B>)
    requires SameShape(a, b)
    ensures SameShape(b, a)
  {
  }

  /** A field is a list of patches; `SameShapes(f, g)` says the two fields are aligned patch by patch. */
  predicate SameShapes<A, B>(f: seq<Cube<A>>, g: seq<Cube<B>>)
  {
    |f| == |g| && forall p :: 0 <= p < |f| ==> SameShape(f[p], g[p])
  }

  // ---------------------------------------------------------------------------
  // Elementwise operations

  /** `field * mask` for a 0/1 mask: the value where the mask is 1, zero elsewhere. */
  function Mask(d: Cube<real>, m: Cube<bool>): (r: Cube<real>)
    requires SameShape(d, m)
    ensures SameShape(r, d)
    ensures forall i, j, k :: 0 <= i < |d| && 0 <= j < |d[i]| && 0 <= k < |d[i][j]| ==>
      r[i][j][k] == (if m[i][j][k] then d[i][j][k] else 0.0)
  {
    seq(|d|, i requires 0 <= i < |d| =>
      seq(|d[i]|, j requires 0 <= j < |d[i]| =>
        seq(|d[i][j]|, k requires 0 <= k < |d[i][j]| =>
          if m[i][j][k] then d[i][j][k] else 0.0)))
  }

  /** `field * w` for a scalar `w`. */
  function Scale(d: Cube<real>, w: real): (r: Cube<real>)
    ensures SameShape(r, d)
    ensures forall i, j, k :: 0 <= i < |d| && 0 <= j < |d[i]| && 0 <= k < |d[i][j]| ==>
      r[i][j][k] == d[i][j][k] * w
  {
    seq(|d|, i requires 0 <= i < |d| =>
      seq(|d[i]|, j requires 0 <= j < |d[i]| =>
        seq(|d[i][j]|, k requires 0 <= k < |d[i][j]| => d[i][j][k] * w)))
  }

  /** `mask * w` for a boolean array and a scalar: `w` where the mask is set, zero elsewhere. */
  function Weight(m: Cube<bool>, w: real): (r: Cube<real>)
    ensures SameShape(r, m)
    ensures forall i, j, k :: 0 <= i < |m| && 0 <= j < |m[i]| && 0 <= k < |m[i][j]| ==>
      r[i][j][k] == (if m[i][j][k] then w else 0.0)
  {
    seq(|m|, i requires 0 <= i < |m| =>
      seq(|m[i]|, j requires 0 <= j < |m[i]| =>
        seq(|m[i][j]|, k requires 0 <= k < |m[i][j]| => if m[i][j][k] then w else 0.0)))
  }

  /** `a ^ b` on boolean arrays. */
  function Xor(a: Cube<bool>, b: Cube<bool>): (r: Cube<bool>)
    requires SameShape(a, b)
    ensures SameShape(r, a)
    ensures forall i, j, k :: 0 <= i < |a| && 0 <= j < |a[i]| && 0 <= k < |a[i][j]| ==>
      r[i][j][k] == (a[i][j][k] != b[i][j][k])
  {
    seq(|a|, i requires 0 <= i < |a| =>
      seq(|a[i]|, j requires 0 <= j < |a[i]| =>
        seq(|a[i][j]|, k requires 0 <= k < |a[i][j]| => a[i][j][k] != b[i][j][k])))
  }

  /** `np.zeros(c.shape, dtype='bool')`. */
  function Falses<T>(c: Cube<T>): (r: Cube<bool>)
    ensures SameShape(r, c)
    ensures forall i, j, k :: 0 <= i < |c| && 0 <= j < |c[i]| && 0 <= k < |c[i][j]| ==> !r[i][j][k]
  {
    seq(|c|, i requires 0 <= i < |c| =>
      seq(|c[i]|, j requires 0 <= j < |c[i]| =>
        seq(|c[i][j]|, k requires 0 <= k < |c[i][j]| => false)))
  }

  /** Every cell of `m` is set. */
  predicate AllTrue(m: Cube<bool>)
  {
    forall i, j, k :: 0 <= i < |m| && 0 <= j < |m[i]| && 0 <= k < |m[i][j]| ==> m[i][j][k]
  }

  /** Two arrays of the same shape that agree cell by cell are equal. */
  lemma CubeExtensionality<T>(a: Cube<T>, b: Cube<T>)
    requires SameShape(a, b)
    requires forall i, j, k :: 0 <= i < |a| && 0 <= j < |a[i]| && 0 <= k < |a[i][j]| ==> a[i][j][k] == b[i][j][k]
    ensures a == b
  {
    forall i | 0 <= i < |a| ensures a[i] == b[i] {
      forall j | 0 <= j < |a[i]| ensures a[i][j] == b[i][j] {
      }
    }
  }

  /** Multiplying by a mask that is 1 everywhere changes nothing. */
  lemma MaskAllTrue(d: Cube<real>, m: Cube<bool>)
    requires SameShape(d, m) && AllTrue(m)
    ensures Mask(d, m) == d
  {
    CubeExtensionality(Mask(d, m), d);
  }

  // ---------------------------------------------------------------------------
  // Sums: `Sum1` over a row, `Sum2` over a plane, `Sum3` is numpy's `array.sum()`,
  // `SumPatches` is Python's `sum` over the per-patch sums.  Each level sums the
  // sums of the level below, so every fact about sums is proved once, for `Sum1`.

  function Sum1(s: seq<real>): (total: real)
  {
    if |s| == 0 then 0.0 else Sum1(s[..|s| - 1]) + s[|s| - 1]
  }

  function RowSums(s: seq<seq<real>>): (r: seq<real>)
    ensures |r| == |s| && forall j :: 0 <= j < |s| ==> r[j] == Sum1(s[j])
  {
    seq(|s|, j requires 0 <= j < |s| => Sum1(s[j]))
  }

  function Sum2(s: seq<seq<real>>): (total: real)
  {
    Sum1(RowSums(s))
  }

  function PlaneSums(c: Cube<real>): (r: seq<real>)
    ensures |r| == |c| && forall i :: 0 <= i < |c| ==> r[i] == Sum2(c[i])
  {
    seq(|c|, i requires 0 <= i < |c| => Sum2(c[i]))
  }

  function Sum3(c: Cube<real>): (total: real)
  {
    Sum1(PlaneSums(c))
  }

  function PatchSums(f: seq<Cube<real>>): (r: seq<real>)
    ensures |r| == |f| && forall p :: 0 <= p < |f| ==> r[p] == Sum3(f[p])
  {
    seq(|f|, p requires 0 <= p < |f| => Sum3(f[p]))
  }

  function SumPatches(f: seq<Cube<real>>): (total: real)
  {
    Sum1(PatchSums(f))
  }

  // Cellwise relations between two arrays of the same shape.

  ghost predicate Leq1(a: seq<real>, b: seq<real>)
  {
    |a| == |b| && forall k :: 0 <= k < |a| ==> a[k] <= b[k]
  }

  ghost predicate Leq2(a: seq<seq<real>>, b: seq<seq<real>>)
  {
    |a| == |b| && forall j :: 0 <= j < |a| ==> Leq1(a[j], b[j])
  }

  ghost predicate Leq3(a: Cube<real>, b: Cube<real>)
  {
    |a| == |b| && forall i :: 0 <= i < |a| ==> Leq2(a[i], b[i])
  }

  ghost predicate Scaled1(a: seq<real>, b: seq<real>, w: real)
  {
    |a| == |b| && forall k :: 0 <= k < |a| ==> a[k] == w * b[k]
  }

  ghost predicate Scaled2(a: seq<seq<real>>, b: seq<seq<real>>, w: real)
  {
    |a| == |b| && forall j :: 0 <= j < |a| ==> Scaled1(a[j], b[j], w)
  }

  ghost predicate Scaled3(a: Cube<real>, b: Cube<real>, w: real)
  {
    |a| == |b| && forall i :: 0 <= i < |a| ==> Scaled2(a[i], b[i], w)
  }

  ghost predicate NonNeg1(a: seq<real>)
  {
    forall k :: 0 <= k < |a| ==> 0.0 <= a[k]
  }

  ghost predicate NonNeg2(a: seq<seq<real>>)
  {
    forall j :: 0 <= j < |a| ==> NonNeg1(a[j])
  }

  ghost predicate NonNeg3(a: Cube<real>)
  {
    forall i :: 0 <= i < |a| ==> NonNeg2(a[i])
  }

  /** The layered relations follow from the cellwise facts. */
  lemma Leq3FromCells(a: Cube<real>, b: Cube<real>)
    requires SameShape(a, b)
    requires forall i, j, k :: 0 <= i < |a| && 0 <= j < |a[i]| && 0 <= k < |a[i][j]| ==> a[i][j][k] <= b[i][j][k]
    ensures Leq3(a, b)
  {
  }

  lemma Scaled3FromCells(a: Cube<real>, b: Cube<real>, w: real)
    requires SameShape(a, b)
    requires forall i, j, k :: 0 <= i < |a| && 0 <= j < |a[i]| && 0 <= k < |a[i][j]| ==> a[i][j][k] == w * b[i][j][k]
    ensures Scaled3(a, b, w)
  {
  }

  lemma NonNeg3FromCells(a: Cube<real>)
    requires forall i, j, k :: 0 <= i < |a| && 0 <= j < |a[i]| && 0 <= k < |a[i][j]| ==> 0.0 <= a[i][j][k]
    ensures NonNeg3(a)
  {
  }

  // Monotonicity: a cellwise smaller array has a smaller sum.

  lemma {:induction false} Sum1Mono(a: seq<real>, b: seq<real>)
    requires Leq1(a, b)
    ensures Sum1(a) <= Sum1(b)
  {
    if |a| > 0 {
      Sum1Mono(a[..|a| - 1], b[..|b| - 1]);
    }
  }

  lemma Sum2Mono(a: seq<seq<real>>, b: seq<seq<real>>)
    requires Leq2(a, b)
    ensures Sum2(a) <= Sum2(b)
  {
    forall j | 0 <= j < |a| ensures RowSums(a)[j] <= RowSums(b)[j] {
      Sum1Mono(a[j], b[j]);
    }
    Sum1Mono(RowSums(a), RowSums(b));
  }

  lemma Sum3Mono(a: Cube<real>, b: Cube<real>)
    requires Leq3(a, b)
    ensures Sum3(a) <= Sum3(b)
  {
    forall i | 0 <= i < |a| ensures PlaneSums(a)[i] <= PlaneSums(b)[i] {
      Sum2Mono(a[i], b[i]);
    }
    Sum1Mono(PlaneSums(a), PlaneSums(b));
  }

  lemma SumPatchesMono(f: seq<Cube<real>>, g: seq<Cube<real>>)
    requires |f| == |g| && forall p :: 0 <= p < |f| ==> Leq3(f[p], g[p])
    ensures SumPatches(f) <= SumPatches(g)
  {
    forall p | 0 <= p < |f| ensures PatchSums(f)[p] <= PatchSums(g)[p] {
      Sum3Mono(f[p], g[p]);
    }
    Sum1Mono(PatchSums(f), PatchSums(g));
  }

  // Linearity: scaling every cell by `w` scales the sum by `w`.

  lemma {:induction false} Sum1Scaled(a: seq<real>, b: seq<real>, w: real)
    requires Scaled1(a, b, w)
    ensures Sum1(a) == w * Sum1(b)
  {
    if |a| > 0 {
      var n := |a| - 1;
      Sum1Scaled(a[..n], b[..n], w);
      Distribute(w, Sum1(b[..n]), b[n]);
    }
  }

  lemma Distribute(w: real, x: real, y: real)
    ensures w * (x + y) == w * x + w * y
  {
  }

  lemma RowSumsScaled(a: seq<seq<real>>, b: seq<seq<real>>, w: real)
    requires Scaled2(a, b, w)
    ensures Scaled1(RowSums(a), RowSums(b), w)
  {
    forall j | 0 <= j < |a| ensures RowSums(a)[j] == w * RowSums(b)[j] {
      Sum1Scaled(a[j], b[j], w);
    }
  }

  lemma Sum2Scaled(a: seq<seq<real>>, b: seq<seq<real>>, w: real)
    requires Scaled2(a, b, w)
    ensures Sum2(a) == w * Sum2(b)
  {
    RowSumsScaled(a, b, w);
    Sum1Scaled(RowSums(a), RowSums(b), w);
  }

  lemma PlaneSumsScaled(a: Cube<real>, b: Cube<real>, w: real)
    requires Scaled3(a, b, w)
    ensures Scaled1(PlaneSums(a), PlaneSums(b), w)
  {
    forall i | 0 <= i < |a| ensures PlaneSums(a)[i] == w * PlaneSums(b)[i] {
      Sum2Scaled(a[i], b[i], w);
    }
  }

  lemma Sum3Scaled(a: Cube<real>, b: Cube<real>, w: real)
    requires Scaled3(a, b, w)
    ensures Sum3(a) == w * Sum3(b)
  {
    PlaneSumsScaled(a, b, w);
    Sum1Scaled(PlaneSums(a), PlaneSums(b), w);
  }

  lemma PatchSumsScaled(f: seq<Cube<real>>, g: seq<Cube<real>>, w: real)
    requires |f| == |g| && forall p :: 0 <= p < |f| ==> Scaled3(f[p], g[p], w)
    ensures Scaled1(PatchSums(f), PatchSums(g), w)
  {
    forall p | 0 <= p < |f| ensures PatchSums(f)[p] == w * PatchSums(g)[p] {
      Sum3Scaled(f[p], g[p], w);
    }
  }

  lemma SumPatchesScaled(f: seq<Cube<real>>, g: seq<Cube<real>>, w: real)
    requires |f| == |g| && forall p :: 0 <= p < |f| ==> Scaled3(f[p], g[p], w)
    ensures SumPatches(f) == w * SumPatches(g)
  {
    PatchSumsScaled(f, g, w);
    Sum1Scaled(PatchSums(f), PatchSums(g), w);
  }

  // Positivity: non-negative cells have a non-negative sum, and a positive one if some cell is positive.

  lemma {:induction false} Sum1NonNeg(a: seq<real>)
    requires NonNeg1(a)
    ensures 0.0 <= Sum1(a)
  {
    if |a| > 0 {
      Sum1NonNeg(a[..|a| - 1]);
    }
  }

  lemma {:induction false} Sum1Pos(a: seq<real>, k: nat)
    requires NonNeg1(a)
    requires k < |a| && 0.0 < a[k]
    ensures 0.0 < Sum1(a)
  {
    var n := |a| - 1;
    if k == n {
      Sum1NonNeg(a[..n]);
    } else {
      Sum1Pos(a[..n], k);
    }
  }

  lemma Sum2NonNeg(a: seq<seq<real>>)
    requires NonNeg2(a)
    ensures 0.0 <= Sum2(a) && NonNeg1(RowSums(a))
  {
    forall j | 0 <= j < |a| ensures 0.0 <= RowSums(a)[j] {
      Sum1NonNeg(a[j]);
    }
    Sum1NonNeg(RowSums(a));
  }

  lemma Sum3NonNeg(a: Cube<real>)
    requires NonNeg3(a)
    ensures 0.0 <= Sum3(a) && NonNeg1(PlaneSums(a))
  {
    forall i | 0 <= i < |a| ensures 0.0 <= PlaneSums(a)[i] {
      Sum2NonNeg(a[i]);
    }
    Sum1NonNeg(PlaneSums(a));
  }

  lemma SumPatchesNonNeg(f: seq<Cube<real>>)
    requires forall p :: 0 <= p < |f| ==> NonNeg3(f[p])
    ensures 0.0 <= SumPatches(f) && NonNeg1(PatchSums(f))
  {
    forall p | 0 <= p < |f| ensures 0.0 <= PatchSums(f)[p] {
      Sum3NonNeg(f[p]);
    }
    Sum1NonNeg(PatchSums(f));
  }

  lemma Sum2Pos(a: seq<seq<real>>, j: nat, k: nat)
    requires NonNeg2(a)
    requires j < |a| && k < |a[j]| && 0.0 < a[j][k]
    ensures 0.0 < Sum2(a)
  {
    Sum2NonNeg(a);
    Sum1Pos(a[j], k);
    Sum1Pos(RowSums(a), j);
  }

  lemma Sum3Pos(a: Cube<real>, i: nat, j: nat, k: nat)
    requires NonNeg3(a)
    requires i < |a| && j < |a[i]| && k < |a[i][j]| && 0.0 < a[i][j][k]
    ensures 0.0 < Sum3(a)
  {
    Sum3NonNeg(a);
    Sum2Pos(a[i], j, k);
    Sum1Pos(PlaneSums(a), i);
  }

  lemma SumPatchesPos(f: seq<Cube<real>>, p: nat, i: nat, j: nat, k: nat)
    requires forall p' :: 0 <= p' < |f| ==> NonNeg3(f[p'])
    requires p < |f| && i < |f[p]| && j < |f[p][i]| && k < |f[p][i][j]| && 0.0 < f[p][i][j][k]
    ensures 0.0 < SumPatches(f)
  {
    SumPatchesNonNeg(f);
    Sum3Pos(f[p], i, j, k);
    Sum1Pos(PatchSums(f), p);
  }

  // ---------------------------------------------------------------------------
  // Masked and weighted cells: `field * mask * w`

  /** Every cell set in `m1` is set in `m2`. */
  ghost predicate Within(m1: Cube<bool>, m2: Cube<bool>)
  {
    SameShape(m1, m2) &&
    forall i, j, k :: 0 <= i < |m1| && 0 <= j < |m1[i]| && 0 <= k < |m1[i][j]| ==> (m1[i][j][k] ==> m2[i][j][k])
  }

  /** A non-negative field, masked and weighted by a non-negative scalar, stays non-negative. */
  lemma MaskScaleNonNeg(d: Cube<real>, m: Cube<bool>, w: real)
    requires SameShape(d, m) && NonNeg3(d) && 0.0 <= w
    ensures NonNeg3(Scale(Mask(d, m), w))
  {
    var r := Scale(Mask(d, m), w);
    forall i, j, k | 0 <= i < |r| && 0 <= j < |r[i]| && 0 <= k < |r[i][j]|
      ensures 0.0 <= r[i][j][k]
    {
      var c := if m[i][j][k] then d[i][j][k] else 0.0;
      assert 0.0 <= c;
      assert r[i][j][k] == c * w;
    }
    NonNeg3FromCells(r);
  }

  /** A larger mask lets more of a non-negative field through. */
  lemma MaskScaleMono(d: Cube<real>, m1: Cube<bool>, m2: Cube<bool>, w: real)
    requires SameShape(d, m1) && Within(m1, m2) && NonNeg3(d) && 0.0 <= w
    ensures SameShape(d, m2)
    ensures Leq3(Scale(Mask(d, m1), w), Scale(Mask(d, m2), w))
  {
    SameShapeTransitive(d, m1, m2);
    var r1 := Scale(Mask(d, m1), w);
    var r2 := Scale(Mask(d, m2), w);
    forall i, j, k | 0 <= i < |r1| && 0 <= j < |r1[i]| && 0 <= k < |r1[i][j]|
      ensures r1[i][j][k] <= r2[i][j][k]
    {
      var c2 := if m2[i][j][k] then d[i][j][k] else 0.0;
      assert 0.0 <= c2 * w;
    }
    Leq3FromCells(r1, r2);
  }

  lemma MulLeq(a: real, b: real, w: real)
    requires a <= b && 0.0 <= w
    ensures a * w <= b * w
  {
  }

  /** The weights of a mask by a non-negative volume are non-negative. */
  lemma WeightNonNeg(m: Cube<bool>, w: real)
    requires 0.0 <= w
    ensures NonNeg3(Weight(m, w))
  {
    NonNeg3FromCells(Weight(m, w));
  }

  /** An empty mask weighs nothing, whatever the volume. */
  lemma WeightEmpty(m: Cube<bool>, w: real)
    requires forall i, j, k :: 0 <= i < |m| && 0 <= j < |m[i]| && 0 <= k < |m[i][j]| ==> !m[i][j][k]
    ensures Scaled3(Weight(m, w), Weight(m, w), 0.0)
  {
    Scaled3FromCells(Weight(m, w), Weight(m, w), 0.0);
  }

  /** A field at least `lo`, weighted by `w` on a mask, is at least `lo` times the
      weights of the mask. */
  lemma MaskedAbove(f: Cube<real>, m: Cube<bool>, w: real, lo: real)
    requires SameShape(f, m) && 0.0 <= w
    requires forall i, j, k :: 0 <= i < |f| && 0 <= j < |f[i]| && 0 <= k < |f[i][j]| ==> lo <= f[i][j][k]
    ensures SameShape(Scale(f, w), m)
    ensures Leq3(Scale(Weight(m, w), lo), Mask(Scale(f, w), m))
  {
    SameShapeTransitive(Scale(f, w), f, m);
    var fw := Mask(Scale(f, w), m);
    var wl := Scale(Weight(m, w), lo);
    forall i, j, k | 0 <= i < |f| && 0 <= j < |f[i]| && 0 <= k < |f[i][j]|
      ensures wl[i][j][k] <= fw[i][j][k]
    {
      if m[i][j][k] {
        MulLeq(lo, f[i][j][k], w);
      }
    }
    SameShapeTransitive(wl, m, f);
    SameShapeTransitive(wl, f, fw);
    Leq3FromCells(wl, fw);
  }

  /** A field at most `hi`, weighted by `w` on a mask, is at most `hi` times the
      weights of the mask. */
  lemma MaskedBelow(f: Cube<real>, m: Cube<bool>, w: real, hi: real)
    requires SameShape(f, m) && 0.0 <= w
    requires forall i, j, k :: 0 <= i < |f| && 0 <= j < |f[i]| && 0 <= k < |f[i][j]| ==> f[i][j][k] <= hi
    ensures SameShape(Scale(f, w), m)
    ensures Leq3(Mask(Scale(f, w), m), Scale(Weight(m, w), hi))
  {
    SameShapeTransitive(Scale(f, w), f, m);
    var fw := Mask(Scale(f, w), m);
    var wh := Scale(Weight(m, w), hi);
    forall i, j, k | 0 <= i < |f| && 0 <= j < |f[i]| && 0 <= k < |f[i][j]|
      ensures fw[i][j][k] <= wh[i][j][k]
    {
      if m[i][j][k] {
        MulLeq(f[i][j][k], hi, w);
      }
    }
    SameShapeTransitive(fw, f, m);
    SameShapeTransitive(fw, m, wh);
    Leq3FromCells(fw, wh);
  }

  lemma ScaleScaled(a: Cube<real>, w: real)
    ensures Scaled3(Scale(a, w), a, w)
  {
    Scaled3FromCells(Scale(a, w), a, w);
  }

  /** Patch by patch bounds `L <= F <= H`, with `L` and `H` the weights `W` times `lo`
      and `hi`, bound the sums. */
  lemma SumPatchesBetween(f: seq<Cube<real>>, w: seq<Cube<real>>, l: seq<Cube<real>>, h: seq<Cube<real>>,
                          lo: real, hi: real)
    requires |f| == |w| == |l| == |h|
    requires forall p :: 0 <= p < |f| ==> Leq3(l[p], f[p]) && Leq3(f[p], h[p])
    requires forall p :: 0 <= p < |f| ==> Scaled3(l[p], w[p], lo) && Scaled3(h[p], w[p], hi)
    ensures lo * SumPatches(w) <= SumPatches(f) <= hi * SumPatches(w)
  {
    SumPatchesMono(l, f);
    SumPatchesMono(f, h);
    SumPatchesScaled(l, w, lo);
    SumPatchesScaled(h, w, hi);
  }
}
