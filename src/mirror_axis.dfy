/** Where the flip line comes from: the stock's bounding box
    (`compute_mirror_from_stock`), a registration sketch
    (`compute_mirror_from_sketch`), and the re-centring of the origin's
    height (`adjust_mirror_origin`). */
module MirrorAxis {
  import opened Outcomes
  import opened Geometry

  /** A FreeCAD `BoundBox`. */
  datatype BoundBox = BoundBox(xMin: real, xMax: real, yMin: real, yMax: real, zMin: real, zMax: real)
  {
    function XLength(): real { xMax - xMin }
    function YLength(): real { yMax - yMin }
    function ZLength(): real { zMax - zMin }
  }

  /** The pair `(origin, linenorm)` the source returns. */
  datatype FlipLine = FlipLine(origin: Vec3, normal: Vec3)

  /** `compute_mirror_from_stock`: the line lies on the box's low face along the
      flip direction, centred in the other horizontal direction and in height. */
  function MirrorFromStock(stockBox: BoundBox, flipXAxis: bool): (line: FlipLine)
    ensures IsUnit(line.normal)
    ensures line.origin.z == (stockBox.zMin + stockBox.zMax) / 2.0
    ensures flipXAxis ==> line.normal == Vec3(1.0, 0.0, 0.0)
                          && line.origin.x == stockBox.xMin
                          && line.origin.y == (stockBox.yMin + stockBox.yMax) / 2.0
    ensures !flipXAxis ==> line.normal == Vec3(0.0, 1.0, 0.0)
                           && line.origin.x == (stockBox.xMin + stockBox.xMax) / 2.0
                           && line.origin.y == stockBox.yMin
  {
    var ox := if flipXAxis then stockBox.xMin else stockBox.XLength() / 2.0 + stockBox.xMin;
    var oy := if flipXAxis then stockBox.YLength() / 2.0 + stockBox.yMin else stockBox.yMin;
    var linenorm := if flipXAxis then Vec3(1.0, 0.0, 0.0) else Vec3(0.0, 1.0, 0.0);
    FlipLine(Vec3(ox, oy, stockBox.ZLength() / 2.0 + stockBox.zMin), linenorm)
  }

  /** `adjust_mirror_origin`: only the height changes, to the middle of the stock. */
  function AdjustMirrorOrigin(stockBox: BoundBox, origin: Vec3): (adjusted: Vec3)
    ensures adjusted.x == origin.x && adjusted.y == origin.y
    ensures stockBox.zMin <= stockBox.zMax ==> stockBox.zMin <= adjusted.z <= stockBox.zMax
    ensures adjusted.z - stockBox.zMin == stockBox.zMax - adjusted.z
  {
    origin.(z := (stockBox.zMax + stockBox.zMin) / 2.0)
  }

  /** Re-centring is idempotent, and a no-op on the line computed from the same stock. */
  lemma AdjustMirrorOriginStable(stockBox: BoundBox, origin: Vec3, flipXAxis: bool)
    ensures AdjustMirrorOrigin(stockBox, AdjustMirrorOrigin(stockBox, origin)) == AdjustMirrorOrigin(stockBox, origin)
    ensures var line := MirrorFromStock(stockBox, flipXAxis);
            AdjustMirrorOrigin(stockBox, line.origin) == line.origin
  {
  }

  // ---------------------------------------------------------------------
  // Registration sketch
  // ---------------------------------------------------------------------

  /** `eps_tol`: the distance below which a centre counts as on the line or matched. */
  const EPS_TOL: real := 1e-7

  /** One sketch geometry element: a full circle; a bounded curve with a
      `StartPoint` and an `EndPoint` (a line segment, an arc of a circle or of
      an ellipse, a B-spline), which carries the distance between its end
      points as the host computes it (a square root; `LengthsKnown` ties it to
      the end points); or any other element (a point, an ellipse, an infinite
      line), which has no end points. */
  datatype Curve = Circle(center: Vec3) | Bounded(start: Vec3, end: Vec3, length: real) | Unbounded

  /** An entry of `Geometry` together with its facade's `Construction` flag. */
  datatype SketchGeometry = SketchGeometry(curve: Curve, construction: bool)

  predicate KnownLength(c: Curve)
  {
    c.Bounded? ==> c.length >= 0.0 && c.length * c.length == NormSq(Sub(c.end, c.start))
  }

  predicate LengthsKnown(sketch: seq<SketchGeometry>)
  {
    forall k :: 0 <= k < |sketch| ==> KnownLength(sketch[k].curve)
  }

  /** The centres of the `Part.Circle` elements, construction or not. */
  function Circles(sketch: seq<SketchGeometry>): seq<Vec3>
  {
    if sketch == [] then []
    else Circles(sketch[..|sketch| - 1])
         + (if sketch[|sketch| - 1].curve.Circle? then [sketch[|sketch| - 1].curve.center] else [])
  }

  /** The indices of the circle elements, construction or not. */
  function CircleIndices(sketch: seq<SketchGeometry>): set<int>
  {
    set k | 0 <= k < |sketch| && sketch[k].curve.Circle?
  }

  /** Exactly the centres of the circles are collected, one per circle element. */
  lemma {:induction false} CirclesExact(sketch: seq<SketchGeometry>)
    ensures |Circles(sketch)| == |CircleIndices(sketch)|
    ensures forall p :: p in Circles(sketch) <==>
              exists k :: 0 <= k < |sketch| && sketch[k].curve == Circle(p)
  {
    if sketch != [] {
      var n := |sketch| - 1;
      var init := sketch[..n];
      CirclesExact(init);
      assert forall k :: 0 <= k < n ==> init[k] == sketch[k];
      if sketch[n].curve.Circle? {
        assert CircleIndices(sketch) == CircleIndices(init) + {n};
      } else {
        assert CircleIndices(sketch) == CircleIndices(init);
      }
    }
  }

  /** The geometry of every facade flagged `Construction`, whatever its kind,
      in sketch order. */
  function ConstructionCurves(sketch: seq<SketchGeometry>): seq<Curve>
  {
    if sketch == [] then []
    else ConstructionCurves(sketch[..|sketch| - 1])
         + (if sketch[|sketch| - 1].construction then [sketch[|sketch| - 1].curve] else [])
  }

  /** The indices of the facades flagged `Construction`. */
  function ConstructionIndices(sketch: seq<SketchGeometry>): set<int>
  {
    set k | 0 <= k < |sketch| && sketch[k].construction
  }

  /** Exactly the construction elements are collected, one entry per flagged facade. */
  lemma {:induction false} ConstructionCurvesExact(sketch: seq<SketchGeometry>)
    ensures |ConstructionCurves(sketch)| == |ConstructionIndices(sketch)|
    ensures forall c :: c in ConstructionCurves(sketch) <==>
              exists k :: 0 <= k < |sketch| && sketch[k].construction && sketch[k].curve == c
  {
    if sketch != [] {
      var n := |sketch| - 1;
      var init := sketch[..n];
      ConstructionCurvesExact(init);
      assert forall k :: 0 <= k < n ==> init[k] == sketch[k];
      if sketch[n].construction {
        assert ConstructionIndices(sketch) == ConstructionIndices(init) + {n};
      } else {
        assert ConstructionIndices(sketch) == ConstructionIndices(init);
      }
    }
  }

  lemma ConstructionCurvesKnown(sketch: seq<SketchGeometry>)
    requires LengthsKnown(sketch)
    ensures forall c :: c in ConstructionCurves(sketch) ==> KnownLength(c)
  {
    ConstructionCurvesExact(sketch);
  }

  datatype SketchError =
    | NotTwoCircles            // line 138
    | NotOneConstructionLine   // line 146
    | NoEndPoints              // `l.EndPoint` on a construction element that has none
    | NullDirection            // `normalize()` of a zero vector
    | PinsDoNotMatch           // line 175

  /** `(EndPoint - StartPoint).normalize()` for a curve whose end points differ:
      the unit vector pointing from the start point to the end point. */
  function Direction(l: Curve): (d: Vec3)
    requires l.Bounded? && KnownLength(l) && l.length != 0.0
    ensures IsUnit(d)
    ensures Scale(l.length, d) == Sub(l.end, l.start)
  {
    Normalize(Sub(l.end, l.start), l.length)
  }

  /** `ext`: the part of `rel` orthogonal to the line's normal (lines 156 and 163). */
  function Ext(rel: Vec3, n: Vec3): Vec3
  {
    Sub(rel, Scale(Dot(n, rel), n))
  }

  /** `v.Length < eps_tol`, compared on squares. */
  predicate ShorterThanTol(v: Vec3)
  {
    NormSq(v) < EPS_TOL * EPS_TOL
  }

  /** The relative vector line 162 builds for circle j: from circle i's centre,
      so `cj` plays no part. */
  function RelJ(ci: Vec3, cj: Vec3, start: Vec3): Vec3
  {
    Sub(ci, start)
  }

  /** What the inner loop finds for circle i: it is on the line, or some j matches. */
  predicate CircleMatchedAsWritten(circles: seq<Vec3>, i: int, start: Vec3, n: Vec3)
    requires 0 <= i < |circles|
  {
    var extI := Ext(Sub(circles[i], start), n);
    ShorterThanTol(extI)
    || exists j :: 0 <= j < |circles| && ShorterThanTol(Sub(extI, Ext(RelJ(circles[i], circles[j], start), n)))
  }

  predicate MatchedAsWritten(circles: seq<Vec3>, start: Vec3, n: Vec3)
  {
    forall i :: 0 <= i < |circles| ==> CircleMatchedAsWritten(circles, i, start, n)
  }

  /** The matching as written accepts every layout of circles: each circle is
      compared with itself, so `allmatched` is never cleared. */
  lemma MatchedAsWrittenAlwaysHolds(circles: seq<Vec3>, start: Vec3, n: Vec3)
    ensures MatchedAsWritten(circles, start, n)
  {
    forall i | 0 <= i < |circles|
      ensures CircleMatchedAsWritten(circles, i, start, n)
    {
      var extI := Ext(Sub(circles[i], start), n);
      assert Sub(extI, Ext(RelJ(circles[i], circles[i], start), n)) == Vec3(0.0, 0.0, 0.0);
    }
  }

  /** The nested loops of lines 149-170. */
  method AllMatched(circles: seq<Vec3>, start: Vec3, linenorm: Vec3) returns (allmatched: bool)
    ensures allmatched == MatchedAsWritten(circles, start, linenorm)
  {
    allmatched := true;
    for i := 0 to |circles|
      invariant allmatched == forall k :: 0 <= k < i ==> CircleMatchedAsWritten(circles, k, start, linenorm)
    {
      var matched := false;
      var relI := Sub(circles[i], start);
      var extI := Ext(relI, linenorm);
      if ShorterThanTol(extI) {
        continue;
      }
      for j := 0 to |circles|
        invariant !matched
        invariant forall k :: 0 <= k < j ==> !ShorterThanTol(Sub(extI, Ext(RelJ(circles[i], circles[k], start), linenorm)))
      {
        var relJ := RelJ(circles[i], circles[j], start);
        var extJ := Ext(relJ, linenorm);
        if ShorterThanTol(Sub(extI, extJ)) {
          matched := true;
          break;
        }
      }
      if !matched {
        allmatched := false;
      }
    }
  }

  /** `compute_mirror_from_sketch`, with the sketch's geometry list and the
      optional placeable's `Placement.Matrix`. */
  method MirrorFromSketch(sketch: seq<SketchGeometry>, placeable: Option<Mat4>) returns (r: Result<FlipLine, SketchError>)
    requires LengthsKnown(sketch)
    ensures |Circles(sketch)| != 2 ==> r == Failure(NotTwoCircles)
    ensures |Circles(sketch)| == 2 && |ConstructionCurves(sketch)| != 1 ==> r == Failure(NotOneConstructionLine)
    ensures |Circles(sketch)| == 2 && |ConstructionCurves(sketch)| == 1 ==>
              var l := ConstructionCurves(sketch)[0];
              && (!l.Bounded? ==> r == Failure(NoEndPoints))
              && (l.Bounded? && l.length == 0.0 ==> r == Failure(NullDirection))
              && (l.Bounded? && l.length != 0.0 ==> r.Success?)
    ensures r != Failure(PinsDoNotMatch)
    ensures r.Success? ==>
              var l := ConstructionCurves(sketch)[0];
              && l.Bounded? && KnownLength(l) && l.length != 0.0
              && var n := AbsVec(Direction(l));
              && IsUnit(n) && n.x >= 0.0 && n.y >= 0.0 && n.z >= 0.0
              && (placeable.None? ==> r.value == FlipLine(l.start, n))
              && (placeable.Some? ==> r.value == FlipLine(Apply(placeable.value, l.start), Apply(placeable.value, n)))
  {
    var circles := Circles(sketch);
    if |circles| != 2 {
      return Failure(NotTwoCircles);
    }
    var lines := ConstructionCurves(sketch);
    if |lines| != 1 {
      return Failure(NotOneConstructionLine);
    }
    var l := lines[0];
    ConstructionCurvesKnown(sketch);
    if !l.Bounded? {
      return Failure(NoEndPoints);
    }
    if l.length == 0.0 {
      return Failure(NullDirection);
    }
    var linenorm := AbsVec(Direction(l));
    NormSqAbs(Direction(l));
    var allmatched := AllMatched(circles, l.start, linenorm);
    MatchedAsWrittenAlwaysHolds(circles, l.start, linenorm);
    var mirrorline;
    if allmatched {
      mirrorline := FlipLine(l.start, linenorm);
    } else {
      // `allmatched` is never cleared, so the error of line 175 is not reachable.
      assert false;
    }
    if placeable.Some? {
      var t := placeable.value;
      mirrorline := FlipLine(Apply(t, l.start), Apply(t, linenorm));
    }
    return Success(mirrorline);
  }

  /** The placeable's matrix is applied to the normal as to a point: the
      result is the turned normal plus the placement's translation, so it is a
      different vector whenever the placement moves the origin. */
  lemma PlacedNormalIsTranslated(t: Mat4, n: Vec3)
    ensures Apply(t, n) == Add(ApplyLinear(t, n), Vec3(t.a14, t.a24, t.a34))
    ensures Apply(t, n) == ApplyLinear(t, n) <==> t.a14 == 0.0 && t.a24 == 0.0 && t.a34 == 0.0
  {
  }
}
