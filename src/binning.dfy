/** The binning loop both registration scripts run over the projected
    circles: walking the records in order, a record joins the last bin when
    its projection is `isclose` (abs_tol 1e-9) to the projection of that bin's
    first record, and opens a new bin otherwise. */
module Binning {
  import opened Tolerance

  /** A projected registration circle: `proj` along the flip axis, `off`
      along the orthogonal axis. */
  datatype Rec = Rec(proj: real, off: real)

  /** `isclose(c.proj, head.proj, abs_tol=1e-9)`. */
  predicate SameBin(c: Rec, head: Rec)
  {
    IsClose(c.proj, head.proj, REL_TOL, PIN_TOL)
  }

  predicate NonEmptyBins(bins: seq<seq<Rec>>)
  {
    forall k :: 0 <= k < |bins| ==> |bins[k]| > 0
  }

  /** One turn of the loop: the first record opens the first bin, a record
      close to the last bin's head is appended to that bin, any other record
      opens a new bin. */
  function Step(bins: seq<seq<Rec>>, c: Rec): (next: seq<seq<Rec>>)
    requires NonEmptyBins(bins)
    ensures NonEmptyBins(next)
    ensures |bins| <= |next| <= |bins| + 1
  {
    if |bins| == 0 then [[c]]
    else if SameBin(c, bins[|bins| - 1][0]) then bins[|bins| - 1 := bins[|bins| - 1] + [c]]
    else bins + [[c]]
  }

  /** The bins the loop has built after the records `recs`. */
  function BinsOf(recs: seq<Rec>): (bins: seq<seq<Rec>>)
    ensures NonEmptyBins(bins)
    ensures |bins| <= |recs|
    ensures |recs| > 0 ==> |bins| > 0
  {
    if |recs| == 0 then [] else Step(BinsOf(recs[..|recs| - 1]), recs[|recs| - 1])
  }

  /** The records of the bins, bin after bin. */
  function Flatten(bins: seq<seq<Rec>>): seq<Rec>
  {
    if |bins| == 0 then [] else Flatten(bins[..|bins| - 1]) + bins[|bins| - 1]
  }

  lemma FlattenSnoc(bins: seq<seq<Rec>>, bin: seq<Rec>)
    ensures Flatten(bins + [bin]) == Flatten(bins) + bin
  {
    assert (bins + [bin])[..|bins|] == bins;
  }

  /** The bins partition the input in order: concatenated, they give back
      the records exactly as they came. */
  lemma {:induction false} BinsOfFlatten(recs: seq<Rec>)
    ensures Flatten(BinsOf(recs)) == recs
  {
    if |recs| > 0 {
      var prefix := recs[..|recs| - 1];
      var c := recs[|recs| - 1];
      var bins := BinsOf(prefix);
      BinsOfFlatten(prefix);
      assert prefix + [c] == recs;
      if |bins| == 0 {
        FlattenSnoc(bins, [c]);
      } else if SameBin(c, bins[|bins| - 1][0]) {
        var init := bins[..|bins| - 1];
        var last := bins[|bins| - 1];
        assert bins == init + [last];
        assert Step(bins, c) == init + [last + [c]];
        FlattenSnoc(init, last);
        FlattenSnoc(init, last + [c]);
      } else {
        FlattenSnoc(bins, [c]);
      }
    }
  }

  /** Every record of a bin is close to the bin's first record. */
  predicate CloseToHeads(bins: seq<seq<Rec>>)
  {
    forall k, j :: 0 <= k < |bins| && 0 <= j < |bins[k]| ==> SameBin(bins[k][j], bins[k][0])
  }

  /** The head of each bin is not close to the head of the bin before it. */
  predicate HeadsApart(bins: seq<seq<Rec>>)
    requires NonEmptyBins(bins)
  {
    forall k :: 0 <= k < |bins| - 1 ==> !SameBin(bins[k + 1][0], bins[k][0])
  }

  lemma {:induction false} BinsOfCloseToHead(recs: seq<Rec>)
    ensures CloseToHeads(BinsOf(recs))
  {
    if |recs| > 0 {
      var prefix := recs[..|recs| - 1];
      var c := recs[|recs| - 1];
      var bins := BinsOf(prefix);
      var next := BinsOf(recs);
      assert next == Step(bins, c);
      BinsOfCloseToHead(prefix);
      if |bins| > 0 && SameBin(c, bins[|bins| - 1][0]) {
        var last := bins[|bins| - 1];
        forall k, j | 0 <= k < |next| && 0 <= j < |next[k]|
          ensures SameBin(next[k][j], next[k][0])
        {
          if k < |bins| - 1 {
            assert next[k] == bins[k];
            assert SameBin(bins[k][j], bins[k][0]);
          } else {
            assert next[k] == last + [c];
            if j < |last| {
              assert next[k][j] == last[j];
              assert SameBin(last[j], last[0]);
            }
          }
        }
      } else {
        IsCloseBounds(c.proj, c.proj, PIN_TOL);
        assert next == bins + [[c]];
        forall k, j | 0 <= k < |next| && 0 <= j < |next[k]|
          ensures SameBin(next[k][j], next[k][0])
        {
          if k < |bins| {
            assert next[k] == bins[k];
            assert SameBin(bins[k][j], bins[k][0]);
          }
        }
      }
    }
  }

  lemma {:induction false} BinsOfHeadsApart(recs: seq<Rec>)
    ensures HeadsApart(BinsOf(recs))
  {
    if |recs| > 0 {
      var prefix := recs[..|recs| - 1];
      var c := recs[|recs| - 1];
      var bins := BinsOf(prefix);
      var next := BinsOf(recs);
      assert next == Step(bins, c);
      BinsOfHeadsApart(prefix);
      if |bins| > 0 && SameBin(c, bins[|bins| - 1][0]) {
        forall k | 0 <= k < |next| - 1
          ensures !SameBin(next[k + 1][0], next[k][0])
        {
          assert next[k][0] == bins[k][0];
          assert next[k + 1][0] == bins[k + 1][0];
        }
      } else {
        assert next == bins + [[c]];
        forall k | 0 <= k < |next| - 1
          ensures !SameBin(next[k + 1][0], next[k][0])
        {
          assert next[k] == bins[k];
          if k + 1 < |bins| {
            assert next[k + 1] == bins[k + 1];
          } else {
            assert next[k + 1] == [c];
          }
        }
      }
    }
  }

  /** The loop of PathRegister.py lines 30-37 (and RegisterPath.py lines 26-33). */
  method BinByProj(recs: seq<Rec>) returns (bins: seq<seq<Rec>>)
    ensures bins == BinsOf(recs)
  {
    bins := [];
    for n := 0 to |recs|
      invariant bins == BinsOf(recs[..n])
    {
      var c := recs[n];
      assert recs[..n + 1][..n] == recs[..n];
      assert BinsOf(recs[..n + 1]) == Step(bins, c);
      if |bins| == 0 {
        bins := bins + [[c]];
      } else if IsClose(c.proj, bins[|bins| - 1][0].proj, REL_TOL, PIN_TOL) {
        bins := bins[|bins| - 1 := bins[|bins| - 1] + [c]];
      } else {
        bins := bins + [[c]];
      }
    }
    assert recs[..|recs|] == recs;
  }
}
