/** `validate_midline` of PathRegister.py: the registration circles are
    projected onto the flip axis (`proj`) and onto the axis orthogonal to it
    (`off`), binned by `proj`, and within each bin the circles are paired from
    both ends; the mean `off` of the first pair found is the midline, and
    every pair whose mean is not close to it is reported. */
module Midline {
  import opened Outcomes
  import opened Geometry
  import opened Tolerance
  import opened Binning

  /** `(R * flip_axis).normalize()` with `R.rotateZ(pi/2)`: the quarter turn
      about z, `(x, y, z) -> (-y, x, z)`, which keeps the length, so the
      normalisation of a unit axis changes nothing. */
  function OrthoAxis(flip: Vec3): Vec3
  {
    Vec3(-flip.y, flip.x, flip.z)
  }

  lemma QuarterTurn(x: real, y: real, z: real)
    ensures Lin(-y, x, z, -y, x, z) == Lin(x, y, z, x, y, z)
    ensures Lin(x, y, z, -y, x, z) == z * z
    ensures z == 0.0 ==> Lin(x, y, z, -y, x, z) == 0.0
  {
  }

  /** The ortho axis has the flip axis's length, so it is a unit vector when
      the flip axis is one; its dot product with the flip axis is `z * z`, so
      the two are orthogonal when the flip axis lies in the xy plane. */
  lemma OrthoAxisProperties(flip: Vec3)
    ensures NormSq(OrthoAxis(flip)) == NormSq(flip)
    ensures IsUnit(flip) ==> IsUnit(OrthoAxis(flip))
    ensures Dot(flip, OrthoAxis(flip)) == flip.z * flip.z
    ensures flip.z == 0.0 ==> Dot(flip, OrthoAxis(flip)) == 0.0
  {
    QuarterTurn(flip.x, flip.y, flip.z);
  }

  /** The record of one circle at `location` (lines 22-24). */
  function Project(location: Vec3, flip: Vec3): Rec
  {
    Rec(Dot(location, flip), Dot(location, OrthoAxis(flip)))
  }

  /** Lines 9-24: the flip axis, of length `flipLength` (a square root the
      caller supplies), is normalised; the null axis cannot be, and yields
      `None`. Otherwise there is one record per circle, in the circles'
      order, projected on the unit flip axis and its quarter turn, so `proj`
      times the axis's length is the dot product with the axis as given. */
  method ProjectCircles(locations: seq<Vec3>, flip: Vec3, flipLength: real) returns (r: Option<seq<Rec>>)
    requires flipLength >= 0.0 && flipLength * flipLength == NormSq(flip)
    ensures r.None? <==> flipLength == 0.0
    ensures r.Some? ==>
              && |r.value| == |locations|
              && forall k :: 0 <= k < |locations| ==>
                   && r.value[k] == Project(locations[k], Normalize(flip, flipLength))
                   && flipLength * r.value[k].proj == Dot(locations[k], flip)
  {
    if flipLength == 0.0 {
      return None;
    }
    var unit := Normalize(flip, flipLength);
    var cs := [];
    for k := 0 to |locations|
      invariant |cs| == k
      invariant forall j :: 0 <= j < k ==> cs[j] == Project(locations[j], unit)
      invariant forall j :: 0 <= j < k ==> flipLength * cs[j].proj == Dot(locations[j], flip)
    {
      DotScale(locations[k], flipLength, unit);
      cs := cs + [Project(locations[k], unit)];
    }
    return Some(cs);
  }

  /** The mean `off` of the i-th pair of a bin: `b[i]` and `b[-1-i]`, two
      distinct records of the bin. */
  function PairMean(b: seq<Rec>, i: nat): (m: real)
    requires i < |b| / 2
    ensures i < |b| - 1 - i < |b|
    ensures b[i].off <= b[|b| - 1 - i].off ==> b[i].off <= m <= b[|b| - 1 - i].off
    ensures b[|b| - 1 - i].off <= b[i].off ==> b[|b| - 1 - i].off <= m <= b[i].off
  {
    (b[i].off + b[|b| - 1 - i].off) / 2.0
  }

  /** The means of the first `count` pairs of a bin, in the order the `while`
      loop visits them. */
  function BinMeans(b: seq<Rec>, count: nat): (means: seq<real>)
    requires count <= |b| / 2
    ensures |means| == count
  {
    if count == 0 then [] else BinMeans(b, count - 1) + [PairMean(b, count - 1)]
  }

  /** The means of every pair of every bin, bin after bin. */
  function PairMeans(bins: seq<seq<Rec>>): seq<real>
  {
    if |bins| == 0 then []
    else
      var b := bins[|bins| - 1];
      PairMeans(bins[..|bins| - 1]) + BinMeans(b, |b| / 2)
  }

  /** `midline` starts at `inf` (`None`) and is set by the first mean only. */
  function FirstMidline(means: seq<real>): Option<real>
  {
    if |means| == 0 then None else Some(means[0])
  }

  /** How many of `means` are not `isclose` (rel_tol 1e-9, abs_tol `absTol`)
      to `midline`. */
  function CountMismatches(midline: real, means: seq<real>, absTol: real): nat
  {
    if |means| == 0 then 0
    else CountMismatches(midline, means[..|means| - 1], absTol)
         + (if IsClose(midline, means[|means| - 1], REL_TOL, absTol) then 0 else 1)
  }

  lemma BinMeansHead(b: seq<Rec>, count: nat)
    requires 0 < count <= |b| / 2
    ensures BinMeans(b, count)[0] == PairMean(b, 0)
  {
    if count > 1 {
      BinMeansHead(b, count - 1);
    }
  }

  /** No midline is found exactly when every bin holds at most one circle. */
  lemma {:induction false} NoMidlineIffSmallBins(bins: seq<seq<Rec>>)
    ensures PairMeans(bins) == [] <==> forall k :: 0 <= k < |bins| ==> |bins[k]| <= 1
  {
    if |bins| > 0 {
      var init := bins[..|bins| - 1];
      NoMidlineIffSmallBins(init);
      assert forall k :: 0 <= k < |init| ==> init[k] == bins[k];
    }
  }

  /** The midline is the mean of the outermost pair of the first bin that
      holds two circles or more. */
  lemma {:induction false} FirstMidlineFromFirstPairedBin(bins: seq<seq<Rec>>, k: nat)
    requires k < |bins| && |bins[k]| >= 2
    requires forall j :: 0 <= j < k ==> |bins[j]| <= 1
    ensures FirstMidline(PairMeans(bins)) == Some(PairMean(bins[k], 0))
  {
    var init := bins[..|bins| - 1];
    var b := bins[|bins| - 1];
    if k == |bins| - 1 {
      NoMidlineIffSmallBins(init);
      BinMeansHead(b, |b| / 2);
    } else {
      FirstMidlineFromFirstPairedBin(init, k);
    }
  }

  /** A mismatch is counted exactly when some mean is not close to the midline. */
  lemma {:induction false} MismatchesIffSomeFar(midline: real, means: seq<real>, absTol: real)
    ensures CountMismatches(midline, means, absTol) > 0
            <==> exists k :: 0 <= k < |means| && !IsClose(midline, means[k], REL_TOL, absTol)
  {
    if |means| > 0 {
      var init := means[..|means| - 1];
      MismatchesIffSomeFar(midline, init, absTol);
      assert forall k :: 0 <= k < |init| ==> init[k] == means[k];
    }
  }

  /** What the loop of lines 42-59 keeps: `midline` is the first of the
      means seen so far, and `mismatches` counts those not `isclose`
      (abs_tol `absTol`) to it. */
  predicate Tally(midline: Option<real>, mismatches: nat, means: seq<real>, absTol: real)
  {
    && midline == FirstMidline(means)
    && (midline.None? ==> mismatches == 0)
    && (midline.Some? ==> mismatches == CountMismatches(midline.value, means, absTol))
  }

  /** Lines 49-53: an unset midline takes the mean `m`; a set one that is not
      `isclose` (abs_tol `absTol`) to `m` counts a mismatch and stays. */
  method TakeMean(midline0: Option<real>, mismatches0: nat, ghost seen: seq<real>, m: real, absTol: real)
    returns (midline: Option<real>, mismatches: nat)
    requires absTol >= 0.0
    requires Tally(midline0, mismatches0, seen, absTol)
    ensures Tally(midline, mismatches, seen + [m], absTol)
  {
    assert (seen + [m])[..|seen|] == seen;
    midline, mismatches := midline0, mismatches0;
    if midline.None? {
      midline := Some(m);
      IsCloseBounds(m, m, absTol);
    } else if !IsClose(midline.value, m, REL_TOL, absTol) {
      mismatches := mismatches + 1;
    }
  }

  /** The `while` loop of lines 45-54 over one bin, and the middle-pin branch
      of lines 55-59 after it. */
  method PairBin(b: seq<Rec>, midline0: Option<real>, mismatches0: nat, ghost done: seq<real>)
    returns (midline: Option<real>, mismatches: nat)
    requires Tally(midline0, mismatches0, done, PIN_TOL)
    ensures Tally(midline, mismatches, done + BinMeans(b, |b| / 2), PIN_TOL)
  {
    midline, mismatches := midline0, mismatches0;
    var i := 0;
    assert done + BinMeans(b, 0) == done;
    while i < |b| / 2
      invariant 0 <= i <= |b| / 2
      invariant Tally(midline, mismatches, done + BinMeans(b, i), PIN_TOL)
    {
      var c1 := b[i];
      var c2 := b[|b| - 1 - i];
      var m := (c1.off + c2.off) / 2.0;
      assert done + BinMeans(b, i + 1) == done + BinMeans(b, i) + [m];
      midline, mismatches := TakeMean(midline, mismatches, done + BinMeans(b, i), m, PIN_TOL);
      i := i + 1;
    }
    if i == |b| / 2 + 1 {
      // The middle pin of an odd bin: the loop above always stops at
      // `|b| / 2`, so this branch is never taken.
      assert false;
    }
  }

  /** `validate_midline` from line 29 on, over the records `recs` in the
      order the sort of line 26 is meant to produce. Line 44 sorts a copy of
      each bin by `off` and discards it, so pairs come from the bin as built.
      The reports of line 53 are counted in `mismatches`; the one of line 62
      is `noMidline`. */
  method ValidateMidline(recs: seq<Rec>) returns (midline: Option<real>, mismatches: nat, noMidline: bool)
    ensures midline == FirstMidline(PairMeans(BinsOf(recs)))
    ensures midline.None? ==> mismatches == 0
    ensures midline.Some? ==> mismatches == CountMismatches(midline.value, PairMeans(BinsOf(recs)), PIN_TOL)
    ensures noMidline == midline.None?
  {
    var bins := BinByProj(recs);
    midline := None;
    mismatches := 0;
    for n := 0 to |bins|
      invariant Tally(midline, mismatches, PairMeans(bins[..n]), PIN_TOL)
    {
      var b := bins[n];
      assert bins[..n + 1][..n] == bins[..n];
      assert bins[..n + 1][n] == b;
      midline, mismatches := PairBin(b, midline, mismatches, PairMeans(bins[..n]));
    }
    assert bins[..|bins|] == bins;
    noMidline := midline.None?;
  }
}
