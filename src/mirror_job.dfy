/** The two jobs of a two-sided registration: `check_model` copies the base
    objects' labels from the source job to the target job, and `mirror_job`
    places the target job's base objects and stock at the flipped positions of
    the source job's. */
module MirrorJob {
  import opened Outcomes
  import opened Geometry
  import opened FlipTransform

  /** A base object of a job's model: its `Label` (`name`) and its `Placement.Matrix`. */
  datatype Body = Body(name: string, placement: Mat4)

  /** A Path job: its `Label` (`name`), the base objects of `Model.OutList` in order, and
      the `Placement.Matrix` of its stock. */
  class Job {
    var name: string
    var model: array<Body>
    var stockPlacement: Mat4

    constructor (name: string, model: array<Body>, stockPlacement: Mat4)
      ensures this.name == name && this.model == model && this.stockPlacement == stockPlacement
    {
      this.name := name;
      this.model := model;
      this.stockPlacement := stockPlacement;
    }
  }

  /** The exceptions the two operations raise. */
  datatype JobError =
    | DifferentBaseObjectCount   // `check_model`, line 189
    | NoFlipLine                 // `mirror_job`, line 225
    | SourceIndexOutOfRange      // `src_job.Model.OutList[i]` past the source's end, line 254

  /** `check_model`: the two models must have the same number of base objects;
      then every target base object takes the label of the source base object
      at the same index, and nothing else changes. A length mismatch raises
      before any label is written. */
  method CheckModel(src: Job, tgt: Job) returns (error: Option<JobError>)
    modifies tgt.model
    ensures src.model.Length != tgt.model.Length ==>
              error == Some(DifferentBaseObjectCount) && unchanged(tgt.model)
    ensures src.model.Length == tgt.model.Length ==>
              && error == None
              && forall k :: 0 <= k < tgt.model.Length ==>
                   tgt.model[k] == old(tgt.model[k]).(name := old(src.model[k].name))
  {
    if tgt.model.Length != src.model.Length {
      return Some(DifferentBaseObjectCount);
    }
    for i := 0 to src.model.Length
      invariant forall k :: 0 <= k < i ==> tgt.model[k] == old(tgt.model[k]).(name := old(src.model[k].name))
      invariant forall k :: i <= k < tgt.model.Length ==> tgt.model[k] == old(tgt.model[k])
      invariant forall k :: i <= k < src.model.Length ==> src.model[k] == old(src.model[k])
    {
      tgt.model[i] := tgt.model[i].(name := src.model[i].name);
    }
    return None;
  }

  /** `mirror_job`. Without a flip line it raises before touching anything.
      Otherwise the target is relabelled "Reverse" + the source's label, and
      the target's base objects are visited in order, each taking the flipped
      placement `M * src[i]` of the source base object at its index, where
      `M = Ti * R * T` is the flip matrix. There is no length check: a target
      with more base objects than the source raises once the source runs out,
      after the earlier placements are written and before the stock is; a
      shorter target leaves the source's extra base objects unused. Finally the
      target stock takes `M * srcStock`. */
  method MirrorJob(src: Job, tgt: Job, origin: Option<Vec3>, norm: Option<Vec3>) returns (error: Option<JobError>)
    modifies tgt, tgt.model
    ensures origin.None? || norm.None? ==>
              && error == Some(NoFlipLine)
              && unchanged(tgt) && unchanged(tgt.model)
    ensures origin.Some? && norm.Some? ==>
              var m := FlipMatrix(origin.value, norm.value);
              var written := if tgt.model.Length <= src.model.Length then tgt.model.Length else src.model.Length;
              && tgt.name == "Reverse" + old(src.name)
              && tgt.model == old(tgt.model)
              && (forall k :: 0 <= k < written ==>
                    tgt.model[k] == old(tgt.model[k]).(placement := Mul(m, old(src.model[k].placement))))
              && (forall k :: written <= k < tgt.model.Length ==> tgt.model[k] == old(tgt.model[k]))
              && (tgt.model.Length > src.model.Length ==>
                    error == Some(SourceIndexOutOfRange) && tgt.stockPlacement == old(tgt.stockPlacement))
              && (tgt.model.Length <= src.model.Length ==>
                    error == None && tgt.stockPlacement == Mul(m, old(src.stockPlacement)))
  {
    if origin.None? || norm.None? {
      return Some(NoFlipLine);
    }
    var o := origin.value;
    var n := norm.value;
    tgt.name := "Reverse" + src.name;

    var r := Identity();
    var t := Identity();
    t := t.(a14 := -o.x, a24 := -o.y, a34 := -o.z);
    r := r.(a11 := 2.0 * n.x * n.x - 1.0, a12 := 2.0 * n.x * n.y, a13 := 2.0 * n.x * n.z);
    r := r.(a21 := 2.0 * n.x * n.y, a22 := 2.0 * n.y * n.y - 1.0, a23 := 2.0 * n.y * n.z);
    r := r.(a31 := 2.0 * n.z * n.x, a32 := 2.0 * n.z * n.y, a33 := 2.0 * n.z * n.z - 1.0);
    // `T.inverse()`: the translation by +origin (see `AxisFrameInverse`).
    var ti := FromAxisFrame(o);
    assert t == ToAxisFrame(o);
    assert r == FlipBlock(n);
    FlipMatrixIsProduct(o, n);
    ghost var m := FlipMatrix(o, n);
    assert Mul(Mul(ti, r), t) == m;

    var srcModel := src.model;
    var tgtModel := tgt.model;
    for i := 0 to tgtModel.Length
      invariant tgt.model == tgtModel && src.model == srcModel
      invariant tgt.name == "Reverse" + old(src.name)
      invariant tgt.stockPlacement == old(tgt.stockPlacement)
      invariant src.stockPlacement == old(src.stockPlacement)
      invariant i <= srcModel.Length || i == 0
      invariant forall k :: 0 <= k < i ==>
                  tgtModel[k] == old(tgtModel[k]).(placement := Mul(m, old(srcModel[k].placement)))
      invariant forall k :: i <= k < tgtModel.Length ==> tgtModel[k] == old(tgtModel[k])
      invariant forall k :: i <= k < srcModel.Length ==> srcModel[k] == old(srcModel[k])
    {
      if i >= srcModel.Length {
        return Some(SourceIndexOutOfRange);
      }
      tgtModel[i] := tgtModel[i].(placement := Mul(Mul(Mul(ti, r), t), srcModel[i].placement));
    }
    tgt.stockPlacement := Mul(Mul(Mul(ti, r), t), src.stockPlacement);
    return None;
  }
}
