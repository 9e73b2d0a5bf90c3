/** RegisterPath.py, the earlier registration script: the circles are
    projected on the fixed axes x and y, binned by `proj` like
    `validate_midline` does, and then the first bin is paired with the last
    one in a `while` loop whose counter is never advanced. After the loop
    (reached only with fewer than two bins) a single bin fixes the midline
    at its first circle, and every circle of it not close to that midline is
    reported as misaligned. */
module RegisterScript {
  import opened Outcomes
  import opened Geometry
  import opened Tolerance
  import opened Binning
  import opened Midline

  /** `flip_axis` and `ortho_axis` of lines 9-10. */
  const FLIP_AXIS := Vec3(1.0, 0.0, 0.0)
  const ORTHO_AXIS := Vec3(0.0, 1.0, 0.0)

  /** The record of one circle at `location` (lines 20-22): with the fixed
      axes, `proj` is the x coordinate and `off` the y coordinate, and the
      record is the one `validate_midline` builds for the flip axis x. */
  function ScriptRecord(location: Vec3): (r: Rec)
    ensures r == Rec(location.x, location.y)
  {
    Rec(Dot(location, FLIP_AXIS), Dot(location, ORTHO_AXIS))
  }

  /** The fixed ortho axis is the quarter turn of the fixed flip axis, so the
      script's records are those of `validate_midline` for the x axis. */
  lemma ScriptRecordIsProject(location: Vec3)
    ensures ORTHO_AXIS == OrthoAxis(FLIP_AXIS)
    ensures IsUnit(FLIP_AXIS) && IsUnit(ORTHO_AXIS)
    ensures Dot(FLIP_AXIS, ORTHO_AXIS) == 0.0
    ensures ScriptRecord(location) == Project(location, FLIP_AXIS)
  {
  }

  /** The loop of lines 18-22: one record per circle, in the circles' order. */
  method ScriptRecords(locations: seq<Vec3>) returns (cs: seq<Rec>)
    ensures |cs| == |locations|
    ensures forall k :: 0 <= k < |cs| ==> cs[k] == Rec(locations[k].x, locations[k].y)
  {
    cs := [];
    for k := 0 to |locations|
      invariant |cs| == k
      invariant forall j :: 0 <= j < k ==> cs[j] == Rec(locations[j].x, locations[j].y)
    {
      cs := cs + [ScriptRecord(locations[k])];
    }
  }

  /** A pair `(p, q)` of line 45: `p` from the first bin, `q` from the last. */
  datatype Pair = Pair(p: Rec, q: Rec)

  /** `p` and `q` may pair: `isclose(p.proj, q.proj, abs_tol=1e-9)` (line 44). */
  predicate Pins(p: Rec, q: Rec)
  {
    IsClose(p.proj, q.proj, REL_TOL, PIN_TOL)
  }

  /** The index of the first record of `b` that pins `p`, or `|b|` when there
      is none. */
  function FirstPin(p: Rec, b: seq<Rec>): (k: nat)
    ensures k <= |b|
    ensures forall j :: 0 <= j < k ==> !Pins(p, b[j])
    ensures k < |b| ==> Pins(p, b[k])
  {
    if |b| == 0 then 0
    else if Pins(p, b[0]) then 0
    else 1 + FirstPin(p, b[1..])
  }

  /** `b` without its k-th element: `b.remove(q)` for the k-th record. */
  function RemoveAt(b: seq<Rec>, k: nat): (r: seq<Rec>)
    requires k < |b|
    ensures |r| == |b| - 1
    ensures forall j :: 0 <= j < |r| ==> r[j] == (if j < k then b[j] else b[j + 1])
    ensures multiset(r) + multiset{b[k]} == multiset(b)
  {
    assert b == b[..k] + [b[k]] + b[k + 1..];
    b[..k] + b[k + 1..]
  }

  /** The state of one pairing pass: what is left of the first bin (`kept`)
      and of the last bin (`rest`), and the pairs found, in order. */
  datatype Scanned = Scanned(kept: seq<Rec>, rest: seq<Rec>, pairs: seq<Pair>)

  /** One turn of the loop of line 42 for the record `p` of the first bin:
      it pairs with the first record left in the last bin that pins it, and
      both leave their bins; a record with no partner stays. */
  function ScanStep(s: Scanned, p: Rec): Scanned
  {
    var k := FirstPin(p, s.rest);
    if k == |s.rest| then Scanned(s.kept + [p], s.rest, s.pairs)
    else Scanned(s.kept, RemoveAt(s.rest, k), s.pairs + [Pair(p, s.rest[k])])
  }

  /** One pass of lines 42-52 over the records `ps` of the first bin against
      the last bin `b`. */
  function Scan(ps: seq<Rec>, b: seq<Rec>): Scanned
  {
    if |ps| == 0 then Scanned([], b, []) else ScanStep(Scan(ps[..|ps| - 1], b), ps[|ps| - 1])
  }

  lemma ScanSnoc(init: seq<Rec>, p: Rec, b: seq<Rec>)
    ensures Scan(init + [p], b) == ScanStep(Scan(init, b), p)
  {
    assert (init + [p])[..|init|] == init;
  }

  /** The first and the second records of the pairs, in order. */
  function Firsts(pairs: seq<Pair>): seq<Rec>
  {
    if |pairs| == 0 then [] else Firsts(pairs[..|pairs| - 1]) + [pairs[|pairs| - 1].p]
  }

  function Seconds(pairs: seq<Pair>): seq<Rec>
  {
    if |pairs| == 0 then [] else Seconds(pairs[..|pairs| - 1]) + [pairs[|pairs| - 1].q]
  }

  /** The means `(p.off + q.off) / 2` of the pairs (line 48), in order. */
  function Means(pairs: seq<Pair>): seq<real>
  {
    if |pairs| == 0 then [] else Means(pairs[..|pairs| - 1]) + [(pairs[|pairs| - 1].p.off + pairs[|pairs| - 1].q.off) / 2.0]
  }

  lemma SnocPairs(pairs: seq<Pair>, x: Pair)
    ensures Firsts(pairs + [x]) == Firsts(pairs) + [x.p]
    ensures Seconds(pairs + [x]) == Seconds(pairs) + [x.q]
    ensures Means(pairs + [x]) == Means(pairs) + [(x.p.off + x.q.off) / 2.0]
  {
    assert (pairs + [x])[..|pairs|] == pairs;
  }

  /** One turn moves `p` either to the kept records or into a new pair, and
      moves a record of the last bin into that pair or nowhere. */
  lemma ScanStepMoves(s: Scanned, p: Rec)
    ensures multiset(ScanStep(s, p).kept) + multiset(Firsts(ScanStep(s, p).pairs))
            == multiset(s.kept) + multiset(Firsts(s.pairs)) + multiset{p}
    ensures multiset(ScanStep(s, p).rest) + multiset(Seconds(ScanStep(s, p).pairs))
            == multiset(s.rest) + multiset(Seconds(s.pairs))
  {
    var k := FirstPin(p, s.rest);
    if k < |s.rest| {
      SnocPairs(s.pairs, Pair(p, s.rest[k]));
    }
  }

  lemma MultisetSnoc(ps: seq<Rec>)
    requires |ps| > 0
    ensures multiset(ps) == multiset(ps[..|ps| - 1]) + multiset{ps[|ps| - 1]}
  {
    assert ps == ps[..|ps| - 1] + [ps[|ps| - 1]];
  }

  /** A pass partitions the first bin: every record of it is either kept
      or the first of a pair. */
  lemma {:induction false} ScanSplitsFirstBin(ps: seq<Rec>, b: seq<Rec>)
    ensures multiset(Scan(ps, b).kept) + multiset(Firsts(Scan(ps, b).pairs)) == multiset(ps)
  {
    if |ps| > 0 {
      var init := ps[..|ps| - 1];
      var p := ps[|ps| - 1];
      ScanSplitsFirstBin(init, b);
      ScanStepMoves(Scan(init, b), p);
      MultisetSnoc(ps);
    }
  }

  /** A pass partitions the last bin: every record of it is either left or
      the second of a pair. */
  lemma {:induction false} ScanSplitsLastBin(ps: seq<Rec>, b: seq<Rec>)
    ensures multiset(Scan(ps, b).rest) + multiset(Seconds(Scan(ps, b).pairs)) == multiset(b)
  {
    if |ps| > 0 {
      ScanSplitsLastBin(ps[..|ps| - 1], b);
      ScanStepMoves(Scan(ps[..|ps| - 1], b), ps[|ps| - 1]);
    }
  }

  /** Every pair a pass makes pins (line 44). */
  lemma {:induction false} ScanPairsPin(ps: seq<Rec>, b: seq<Rec>)
    ensures forall k :: 0 <= k < |Scan(ps, b).pairs| ==> Pins(Scan(ps, b).pairs[k].p, Scan(ps, b).pairs[k].q)
  {
    if |ps| > 0 {
      var init := ps[..|ps| - 1];
      var p := ps[|ps| - 1];
      var s := Scan(init, b);
      ScanPairsPin(init, b);
      var k := FirstPin(p, s.rest);
      if k < |s.rest| {
        var next := s.pairs + [Pair(p, s.rest[k])];
        assert Scan(ps, b).pairs == next;
        forall j | 0 <= j < |next|
          ensures Pins(next[j].p, next[j].q)
        {
          if j < |s.pairs| {
            assert next[j] == s.pairs[j];
          }
        }
      }
    }
  }

  /** No record of `ps` pins a record of `b`. */
  predicate Unpinned(ps: seq<Rec>, b: seq<Rec>)
  {
    forall i, j :: 0 <= i < |ps| && 0 <= j < |b| ==> !Pins(ps[i], b[j])
  }

  /** After a pass no kept record of the first bin pins any record left in
      the last bin. */
  lemma {:induction false} ScanMaximal(ps: seq<Rec>, b: seq<Rec>)
    ensures Unpinned(Scan(ps, b).kept, Scan(ps, b).rest)
  {
    if |ps| > 0 {
      var init := ps[..|ps| - 1];
      var p := ps[|ps| - 1];
      var s := Scan(init, b);
      ScanMaximal(init, b);
      var k := FirstPin(p, s.rest);
      if k == |s.rest| {
        var kept := s.kept + [p];
        assert Scan(ps, b) == Scanned(kept, s.rest, s.pairs);
        forall i, j | 0 <= i < |kept| && 0 <= j < |s.rest|
          ensures !Pins(kept[i], s.rest[j])
        {
          if i < |s.kept| {
            assert kept[i] == s.kept[i];
          }
        }
      } else {
        var rest := RemoveAt(s.rest, k);
        assert Scan(ps, b) == Scanned(s.kept, rest, s.pairs + [Pair(p, s.rest[k])]);
        forall i, j | 0 <= i < |s.kept| && 0 <= j < |rest|
          ensures !Pins(s.kept[i], rest[j])
        {
          if j < k {
            assert rest[j] == s.rest[j];
          } else {
            assert rest[j] == s.rest[j + 1];
          }
        }
      }
    }
  }

  /** A pass over records none of which pins any record of `b` pairs nothing
      and changes nothing. */
  lemma {:induction false} ScanUnpinned(ps: seq<Rec>, b: seq<Rec>)
    requires Unpinned(ps, b)
    ensures Scan(ps, b) == Scanned(ps, b, [])
  {
    if |ps| > 0 {
      var init := ps[..|ps| - 1];
      assert Unpinned(init, b);
      ScanUnpinned(init, b);
      assert init + [ps[|ps| - 1]] == ps;
    }
  }

  /** So, for the first-match scan over a snapshot of the first bin that
      `Scan` models, a second pass over what the first one left finds no
      pair: that scan pairs only on the first turn of the `while` loop. */
  lemma SecondPassIsIdle(ps: seq<Rec>, b: seq<Rec>)
    ensures Scan(Scan(ps, b).kept, Scan(ps, b).rest) == Scanned(Scan(ps, b).kept, Scan(ps, b).rest, [])
  {
    ScanMaximal(ps, b);
    ScanUnpinned(Scan(ps, b).kept, Scan(ps, b).rest);
  }

  /** The inner loop of line 43, stopped at the first record of `b` that
      pins `p`. */
  method FindPin(p: Rec, b: seq<Rec>) returns (k: nat)
    ensures k == FirstPin(p, b)
  {
    k := 0;
    while k < |b| && !IsClose(p.proj, b[k].proj, REL_TOL, PIN_TOL)
      invariant 0 <= k <= |b|
      invariant forall j :: 0 <= j < k ==> !Pins(p, b[j])
    {
      k := k + 1;
    }
  }

  /** Lines 43-52 for the record `p`: the inner loop finds its partner, and
      the pair's mean goes to the midline or to the disagreement count. */
  method PairOne(s: Scanned, p: Rec, midline0: Option<real>, disagreements0: nat, ghost done: seq<real>)
    returns (next: Scanned, midline: Option<real>, disagreements: nat)
    requires Tally(midline0, disagreements0, done + Means(s.pairs), PIN_TOL)
    ensures next == ScanStep(s, p)
    ensures Tally(midline, disagreements, done + Means(next.pairs), PIN_TOL)
  {
    midline, disagreements := midline0, disagreements0;
    var k := FindPin(p, s.rest);
    if k == |s.rest| {
      next := s.(kept := s.kept + [p]);
    } else {
      var q := s.rest[k];
      SnocPairs(s.pairs, Pair(p, q));
      assert done + Means(s.pairs + [Pair(p, q)]) == done + Means(s.pairs) + [(p.off + q.off) / 2.0];
      midline, disagreements := TakeMean(midline, disagreements, done + Means(s.pairs), (p.off + q.off) / 2.0, PIN_TOL);
      next := Scanned(s.kept, RemoveAt(s.rest, k), s.pairs + [Pair(p, q)]);
    }
  }

  /** The first-match scan of lines 42-52 over one pair of bins, taking the
      midline and the disagreement count along: the first mean sets an unset
      midline, a later one that is not close to it is counted. */
  method PairPass(a: seq<Rec>, b: seq<Rec>, midline0: Option<real>, disagreements0: nat, ghost done: seq<real>)
    returns (s: Scanned, midline: Option<real>, disagreements: nat)
    requires Tally(midline0, disagreements0, done, PIN_TOL)
    ensures s == Scan(a, b)
    ensures Tally(midline, disagreements, done + Means(s.pairs), PIN_TOL)
  {
    s := Scanned([], b, []);
    midline, disagreements := midline0, disagreements0;
    assert done + Means([]) == done;
    for n := 0 to |a|
      invariant s == Scan(a[..n], b)
      invariant Tally(midline, disagreements, done + Means(s.pairs), PIN_TOL)
    {
      assert a[..n + 1] == a[..n] + [a[n]];
      ScanSnoc(a[..n], a[n], b);
      s, midline, disagreements := PairOne(s, a[n], midline, disagreements, done);
    }
    assert a[..|a|] == a;
  }

  /** The offsets of a bin's records, in order. */
  function Offs(b: seq<Rec>): (offs: seq<real>)
    ensures |offs| == |b|
    ensures forall k :: 0 <= k < |b| ==> offs[k] == b[k].off
  {
    if |b| == 0 then [] else Offs(b[..|b| - 1]) + [b[|b| - 1].off]
  }

  /** The loop of lines 67-71 over the only bin: the first circle sets the
      midline, each later one not `isclose` to it (default tolerances, so
      abs_tol 0) is counted as misaligned. */
  method CheckSingleBin(b: seq<Rec>) returns (midline: Option<real>, misaligned: nat)
    ensures Tally(midline, misaligned, Offs(b), 0.0)
  {
    midline, misaligned := None, 0;
    for n := 0 to |b|
      invariant Tally(midline, misaligned, Offs(b[..n]), 0.0)
    {
      assert b[..n + 1][..n] == b[..n];
      midline, misaligned := TakeMean(midline, misaligned, Offs(b[..n]), b[n].off, 0.0);
    }
    assert b[..|b|] == b;
  }

  /** What `pass` turns of the `while` loop of lines 39-63 leave of the bins
      `start`: nothing has happened before the first turn; after it, the
      first and the last bin are what the first pass left of them, the pairs
      and the midline are that pass's, and every turn has reported both bins
      as unpaired (lines 57 and 62). */
  predicate AfterPasses(start: seq<seq<Rec>>, pass: nat, bins: seq<seq<Rec>>, pairs: seq<Pair>,
                        unpaired: nat, midline: Option<real>, disagreements: nat)
  {
    if pass == 0 then
      bins == start && pairs == [] && unpaired == 0 && midline.None? && disagreements == 0
    else
      |start| >= 2 &&
      var s := Scan(start[0], start[|start| - 1]);
      && bins == start[0 := s.kept][|start| - 1 := s.rest]
      && pairs == s.pairs
      && unpaired == 2 * pass
      && Tally(midline, disagreements, Means(s.pairs), PIN_TOL)
  }

  /** One turn of the `while` loop of lines 39-63, with `i` still 0: the
      first bin is paired with the last one, and since `a.count` and
      `b.count` are bound methods, never equal to 0, both are reported as
      unpaired and neither is removed. */
  method PairingTurn(bins0: seq<seq<Rec>>, pairs0: seq<Pair>, unpaired0: nat, midline0: Option<real>,
                     disagreements0: nat, ghost start: seq<seq<Rec>>, ghost pass: nat)
    returns (bins: seq<seq<Rec>>, pairs: seq<Pair>, unpaired: nat, midline: Option<real>, disagreements: nat)
    requires |bins0| >= 2
    requires AfterPasses(start, pass, bins0, pairs0, unpaired0, midline0, disagreements0)
    ensures AfterPasses(start, pass + 1, bins, pairs, unpaired, midline, disagreements)
  {
    var i := 0;
    var a := bins0[i];
    var b := bins0[|bins0| - 1 - i];
    if pass > 0 {
      SecondPassIsIdle(start[0], start[|start| - 1]);
    } else {
      assert Tally(midline0, disagreements0, [], PIN_TOL);
    }
    var s;
    s, midline, disagreements := PairPass(a, b, midline0, disagreements0, Means(pairs0));
    if pass > 0 {
      assert s.pairs == [];
      assert Means(pairs0) + Means([]) == Means(pairs0);
    } else {
      assert [] + Means(s.pairs) == Means(s.pairs);
    }
    pairs := pairs0 + s.pairs;
    bins := bins0[i := s.kept][|bins0| - 1 - i := s.rest];
    unpaired := unpaired0 + 2;
  }

  /** The script from line 26 on over the records `recs`, taken in the order
      the sort of line 24 is meant to produce. The `while` loop of lines
      39-63 never advances `i` and never removes a bin, so with two bins or
      more it runs forever; the model runs `passes` turns of it and then
      reports `stillLooping`. The console reports become counters and flags:
      `disagreements` (line 52), `unpaired` (lines 57 and 62), `misaligned`
      (line 71) and `noMidline` (line 77). */
  method RunScript(recs: seq<Rec>, passes: nat)
    returns (bins: seq<seq<Rec>>, pairs: seq<Pair>, unpaired: nat, midline: Option<real>,
             disagreements: nat, misaligned: nat, stillLooping: bool, noMidline: bool)
    ensures stillLooping == (|BinsOf(recs)| >= 2)
    ensures stillLooping ==>
              && AfterPasses(BinsOf(recs), passes, bins, pairs, unpaired, midline, disagreements)
              && misaligned == 0 && !noMidline
    ensures |BinsOf(recs)| == 1 ==>
              && bins == BinsOf(recs) && pairs == [] && unpaired == 0 && disagreements == 0
              && midline == Some(bins[0][0].off)
              && misaligned == CountMismatches(bins[0][0].off, Offs(bins[0]), 0.0)
              && !noMidline
    ensures BinsOf(recs) == [] ==>
              && bins == [] && pairs == [] && unpaired == 0 && disagreements == 0 && misaligned == 0
              && midline.None? && noMidline
  {
    bins := BinByProj(recs);
    ghost var start := bins;
    pairs, unpaired, midline, disagreements, misaligned := [], 0, None, 0, 0;
    stillLooping, noMidline := false, false;
    var i := 0;
    var pass := 0;
    while i < |bins| / 2 && pass < passes
      invariant 0 <= pass <= passes && |bins| == |start|
      invariant AfterPasses(start, pass, bins, pairs, unpaired, midline, disagreements)
    {
      bins, pairs, unpaired, midline, disagreements :=
        PairingTurn(bins, pairs, unpaired, midline, disagreements, start, pass);
      pass := pass + 1;
    }
    if i < |bins| / 2 {
      stillLooping := true;
      return;
    }
    if |bins| > 0 {
      if |bins| == 1 {
        midline, misaligned := CheckSingleBin(bins[0]);
      } else {
        // "Too many unpaired registration holes": the loop above exits only
        // with fewer than two bins, so this branch is never taken.
        assert false;
      }
    }
    noMidline := midline.None?;
  }
}
