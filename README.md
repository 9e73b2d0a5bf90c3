# Two-sided registration: a Dafny model

This project models the geometry behind two-sided CNC registration in the
FreeCAD Path workbench. A workpiece is machined, flipped on a fixture, and
machined again from the other face. The second job must be placed where the
first one ends up after the flip. The model covers four parts.

- **The flip line** (`PathMirror.py`). It comes from the stock's bounding box
  (`compute_mirror_from_stock`) or from a registration sketch
  (`compute_mirror_from_sketch`). `adjust_mirror_origin` moves its origin to
  half the stock's height.
- **The flip transform and its application** (`PathMirror.py`).
  `mirror_job` builds `M = Ti * R * T`. When the target has no more base
  objects than the source, it writes `M * src[i]` into every target
  placement and into the target stock; a longer target stops partway, with
  the stock not written. `check_model` is the
  cardinality guard; it also copies the labels.
- **Midline validation** (`PathRegister.py`). `validate_midline` projects
  the registration circles onto the flip axis and the axis orthogonal to it.
  It bins them by projection, pairs each bin from both ends, and takes the
  first pair's mean offset as the midline.
- **The earlier registration script** (`RegisterPath.py`). It bins the
  circles the same way, pairs the first bin with the last one, and checks a
  single remaining bin against its first circle.

Every Dafny module lives under `src/`:

- `Geometry`: vectors and FreeCAD's affine 4x4 `Matrix`, over `real`.
- `Tolerance`: Python's `math.isclose`.
- `MirrorAxis`: `compute_mirror_from_stock`, `compute_mirror_from_sketch`
  and `adjust_mirror_origin`.
- `FlipTransform`: the matrices `T`, `R` and `Ti` of `mirror_job`, and what
  their product does.
- `MirrorJob`: a `Job` class whose base objects are an array that
  `check_model` and `mirror_job` update in place.
- `Binning`: the binning loop both registration scripts share.
- `Midline`: `validate_midline`.
- `RegisterScript`: the module-level code of `RegisterPath.py`.

Three points of the code that a reader might expect otherwise:

- The flip block the code builds is `R = 2 n nᵀ - I`: for a unit `n`, a
  half-turn about `n` with determinant 1; for every `n`, the negation of the Householder reflection
  `I - 2 n nᵀ` (`FlipBlockIsHalfTurn`, `HouseholderIsNegatedFlip`).
- `mirror_job` does not compare the sizes of the source and target
  collections. A longer target fails partway, after the earlier placements
  are written. `check_model` is the only cardinality guard, and callers
  must run it separately.
- The sketch matcher builds `rel_j` from circle `i` (`PathMirror.py` line
  162), so every circle matches itself and the mismatch error cannot be
  raised.

## Model

| member | source | states |
|---|---|---|
| MirrorAxis.MirrorFromStock | PathMirror.py:118-131 | The normal is the unit vector (1,0,0) when flipping about x and (0,1,0) otherwise. The origin sits on the box's low face in the flip direction, halfway across the other horizontal direction, and at half height. |
| MirrorAxis.AdjustMirrorOrigin | PathMirror.py:215-219 | Only z changes, to the stock's mid-height. x and y are kept. The new z is equidistant from ZMin and ZMax, and lies between them when the box is well formed. |
| MirrorAxis.AdjustMirrorOriginStable | PathMirror.py:215-219 | Re-centring twice equals re-centring once. Re-centring the origin computed from the same stock changes nothing. |
| MirrorAxis.CirclesExact | PathMirror.py:136-138 | A centre is collected exactly when some circle element of the sketch, construction or not, has it, and there are as many centres as circle elements. |
| MirrorAxis.ConstructionCurvesExact | PathMirror.py:140-141 | A curve is collected exactly when some entry of the sketch flagged `Construction` has it as its geometry, and there are as many collected curves as flagged entries. |
| MirrorAxis.Direction | PathMirror.py:150 | The normalised direction of a curve whose end points differ is a unit vector, and the distance between the end points times it is `EndPoint - StartPoint`. |
| MirrorAxis.AllMatched | PathMirror.py:149-170 | The nested loops return exactly the matching predicate as written: each circle is on the line, or some circle's extension lies within eps_tol of its own. |
| MirrorAxis.MatchedAsWrittenAlwaysHolds | PathMirror.py:153-170 | The matching accepts every set of circles, because each circle matches itself. So `allmatched` is never cleared and the exception of line 175 is unreachable. |
| MirrorAxis.MirrorFromSketch | PathMirror.py:134-184 | The errors come in the source's order: not exactly two circles, then not exactly one construction line, then a construction element with no end points, or one whose end points coincide. Otherwise the result is `(StartPoint, abs(normalize(End - Start)))`, a unit normal with non-negative components. With a placeable, both parts go through its matrix. The pin mismatch error is never returned. |
| MirrorAxis.PlacedNormalIsTranslated | PathMirror.py:178-182 | The placeable's matrix is applied to the normal as to a point. The result is the turned normal plus the placement's translation, which equals the turned normal exactly when that translation is zero. |
| FlipTransform.AxisFrameInverse | PathMirror.py:231-251 | `T` moves the origin to 0. The translation by +origin used for `T.inverse()` is a two-sided inverse of `T`. |
| FlipTransform.FlipBlock | PathMirror.py:239-249 | `R` is symmetric (A12=A21, A13=A31, A23=A32) and has no translation. |
| FlipTransform.FlipBlockApply | PathMirror.py:239-249 | `R v = 2 (n·v) n - v` for every vector `v`, i.e. `R = 2 n nᵀ - I`. |
| FlipTransform.FlipBlockKeepsNormal | PathMirror.py:239-249 | For unit `n`, `R n = n`. |
| FlipTransform.FlipBlockReversesPerpendicular | PathMirror.py:239-249 | `R v = -v` for every `v` orthogonal to `n`. |
| FlipTransform.FlipBlockTwice | PathMirror.py:239-249 | For unit `n`, applying `R` twice gives back every vector. |
| FlipTransform.FlipBlockIsHalfTurn | PathMirror.py:239-249 | For unit `n`, `det R = 1`: a rotation, not a reflection. The Householder reflection has determinant -1. |
| FlipTransform.HouseholderIsNegatedFlip | PathMirror.py:239-249 | The reflection `I - 2 n nᵀ` maps every vector to the negation of `R`'s image. |
| FlipTransform.ConjugateByTranslation | PathMirror.py:251-254 | `Ti * B * T` for a block `B` without translation is `B` with translation `origin - B origin`. |
| FlipTransform.FlipMatrixIsProduct | PathMirror.py:229-254 | `Ti * R * T` equals the closed-form flip matrix. |
| FlipTransform.FlipMatrixApply | PathMirror.py:254 | The flip matrix maps `p` to `R (p - origin) + origin`. |
| FlipTransform.FlipMatrixFixesLine | PathMirror.py:229-254 | For unit `n`, every point `origin + t n` of the flip line is fixed. |
| FlipTransform.FlipMatrixTurnsPerpendicular | PathMirror.py:229-254 | A point `origin + v` with `v ⊥ n` goes to `origin - v`. |
| FlipTransform.FlipMatrixTwiceApply | PathMirror.py:229-254 | For unit `n`, flipping twice gives back every point. |
| FlipTransform.FlipMatrixInvolution | PathMirror.py:229-254 | For unit `n`, `M * M` is the identity matrix. |
| FlipTransform.FlipTwiceRestoresPlacement | PathMirror.py:253-256 | For a unit `n`, mirroring a placement twice gives back the original placement. |
| MirrorJob.CheckModel | PathMirror.py:187-192 | Different lengths raise `DifferentBaseObjectCount`, with the target unchanged. Otherwise every target base object takes the label of the source object at its index, and nothing else changes. |
| MirrorJob.MirrorJob | PathMirror.py:222-257 | With no origin or normal it raises before any change. Otherwise the target is labelled "Reverse" + the source label. Each target object at an index the source has gets `M * src[k].placement`, and the array itself is not replaced. A longer target raises `SourceIndexOutOfRange` after those writes, with the stock untouched. Otherwise the stock becomes `M * srcStock`. |
| Tolerance.IsCloseBounds | PathRegister.py:34 | Within `abs_tol` implies close. Close implies within `abs_tol` or within the relative bound. Closeness is symmetric and reflexive. |
| Binning.BinsOf | PathRegister.py:29-37 | No bin is empty. There are at most as many bins as records, and at least one bin when there is a record. |
| Binning.BinsOfFlatten | PathRegister.py:29-37 | The bins, concatenated in order, give back the records exactly. |
| Binning.BinsOfCloseToHead | PathRegister.py:34-35 | Every record of a bin is `isclose` (abs_tol 1e-9) to the bin's first record. |
| Binning.BinsOfHeadsApart | PathRegister.py:34-37 | The head of each bin is not close to the head of the bin before it. |
| Binning.BinByProj | PathRegister.py:29-37 | The loop builds exactly `BinsOf(records)`. The same loop is RegisterPath.py lines 26-33. |
| Midline.OrthoAxisProperties | PathRegister.py:9-12 | The quarter turn keeps the length, so the ortho axis is unit when the flip axis is. Its dot product with the flip axis is `z*z`, zero when the flip axis is horizontal. |
| Geometry.Normalize | PathRegister.py:9 | `normalize()` of a non-null vector, given its length, is a unit vector that the length scales back to the vector. |
| Midline.ProjectCircles | PathRegister.py:9-24 | A null flip axis cannot be normalised and gives no records. Otherwise there is one record per circle in order, with `proj` the dot product with the normalised flip axis and `off` the dot product with its quarter turn; `proj` times the axis length is the dot product with the axis as given. |
| Midline.PairMean | PathRegister.py:46-49 | For `i < floor(len(b)/2)`, `i` and `len(b)-1-i` are distinct indices in range. The mean lies between the two offsets. |
| Midline.NoMidlineIffSmallBins | PathRegister.py:41-62 | There is no pair mean, so the midline stays `inf`, exactly when every bin holds at most one circle. |
| Midline.FirstMidlineFromFirstPairedBin | PathRegister.py:42-51 | The midline is the mean of the outermost pair of the first bin with two circles or more. |
| Midline.MismatchesIffSomeFar | PathRegister.py:50-53 | The mismatch count is positive exactly when some mean is not `isclose` to the midline. |
| Midline.TakeMean | PathRegister.py:49-53 | An unset midline takes the mean. A set one is kept, and the mismatch count grows by one exactly when the mean is not close to it. |
| Midline.PairBin | PathRegister.py:45-59 | The `while` loop over a bin adds that bin's pair means to the tally. The middle-pin branch of lines 55-59 is unreachable. |
| Midline.ValidateMidline | PathRegister.py:29-65 | The result is the first pair mean over all bins, or `None` for `inf`. The mismatches count the means not close to it, and the no-midline report is issued exactly when it is `None`. |
| RegisterScript.ScriptRecord | RegisterPath.py:18-22 | With the fixed axes, `proj` is the x coordinate and `off` the y coordinate. |
| RegisterScript.ScriptRecordIsProject | RegisterPath.py:9-10 | The fixed axes are unit and orthogonal, and the ortho axis is the quarter turn of the flip axis. So the script's records are `validate_midline`'s for the x axis. |
| RegisterScript.ScriptRecords | RegisterPath.py:18-22 | One record `(x, y)` per circle, in order. |
| RegisterScript.FirstPin | RegisterPath.py:43-44 | The index of the first record of the last bin whose `proj` is close to `p`'s, or the bin's length when there is none. |
| RegisterScript.FindPin | RegisterPath.py:43-44 | The inner scan finds exactly `FirstPin`. |
| RegisterScript.RemoveAt | RegisterPath.py:46-47 | Removing a record keeps the others in order and takes exactly that record out of the multiset. |
| RegisterScript.ScanStepMoves | RegisterPath.py:42-47 | One record moves either to the kept records or into a new pair with one record of the last bin. No record is lost or created. |
| RegisterScript.ScanSplitsFirstBin | RegisterPath.py:42-47 | After a pass, the kept records and the first elements of the pairs are, as a multiset, exactly the first bin. |
| RegisterScript.ScanSplitsLastBin | RegisterPath.py:42-47 | After a pass, the records left and the second elements of the pairs are, as a multiset, exactly the last bin. |
| RegisterScript.ScanPairsPin | RegisterPath.py:44-45 | Every pair has `isclose` projections (abs_tol 1e-9). |
| RegisterScript.ScanMaximal | RegisterPath.py:42-47 | After a pass, no kept record is close to any record left in the last bin. |
| RegisterScript.ScanUnpinned | RegisterPath.py:42-47 | A pass over records none of which is close to any record of the other bin pairs nothing and changes nothing. |
| RegisterScript.SecondPassIsIdle | RegisterPath.py:39-52 | For the first-match scan over a snapshot of the first bin, a second pass over what the first one left finds no pair. |
| RegisterScript.PairOne | RegisterPath.py:43-52 | One turn for a record of the first bin equals `ScanStep`. The pair's mean goes to the midline or to the disagreement count. |
| RegisterScript.PairPass | RegisterPath.py:42-52 | The pass computes `Scan` of the two bins. Its means extend the tally: the first one sets the midline, and later disagreeing ones are counted. |
| RegisterScript.CheckSingleBin | RegisterPath.py:65-71 | The midline is the first circle's offset. `misaligned` counts the offsets not close to it at the default tolerances (abs_tol 0). |
| RegisterScript.PairingTurn | RegisterPath.py:39-63 | For the snapshot scan, one more turn keeps `AfterPasses`: the bins, pairs, midline and tally of the first pass. It adds two unpaired reports and removes no bin. |
| RegisterScript.RunScript | RegisterPath.py:26-77 | The loop still runs after any number of turns exactly when there are two bins or more, and its state is then `AfterPasses` of the snapshot scan. With one bin, the midline is its first circle's offset and the misaligned count is as above. With no bin, the midline is unset and the no-midline report is issued. |

## Left out

- FreeCAD document and GUI services are not modelled: selection, the `elicit_*` and `find_job_*` helpers, `InList`, `getObjectsByLabel` and the type predicates. They are host lookups with no algorithm of their own.
- `copy_stock` (PathMirror.py lines 195-212) and `recompute` (line 257) are host calls and are not modelled.
- `normalize` needs a square root. A curve with end points carries the distance between them, and `LengthsKnown` ties it to the end points; a zero distance is the `NullDirection` error. `ProjectCircles` likewise takes the flip axis's length from its caller. FreeCAD refuses to normalise a vector shorter than a small epsilon; the model refuses only the exact null vector.
- Midline.ProjectCircles: `flip_axis.normalize()` changes the caller's vector in place; the model does not return the normalised axis to the caller.
- `rotateZ(pi/2)` needs trigonometry. The ortho axis is the exact quarter turn `(-y, x, z)`, and its normalisation is dropped because it keeps the length.
- Floating point is not modelled: all arithmetic is on `real`, and `isclose` uses real arithmetic.
- Midline.OrthoAxisProperties: the converse, that the axes are not orthogonal when the flip axis has `z != 0`, is not stated. It follows from the stated `Dot == z*z`.
- Circle extraction and the sort are not modelled. The scripts iterate sketch objects instead of their geometry and use `Part` without importing it. The sort key `a[0]` does not apply to the anonymous records. Both scripts are modelled from the binning on, over records already sorted by `proj`.
- The progress messages of PathRegister.py lines 27 and 39 are dropped. Both concatenate a string with a number, so line 27 raises a `TypeError` on every call, before any binning, and line 39 is never reached; the model runs on as if neither were there.
- Midline.ValidateMidline: the mismatch message of PathRegister.py line 53 also concatenates a string with a number and would raise at the first mismatch. The model counts the mismatches in `mismatches` instead.
- RegisterScript.CheckSingleBin: the message of RegisterPath.py line 71 reads `p.circle`, which the records do not have, and would raise at the first misaligned circle. The model counts them in `misaligned` instead.
- RegisterScript.PairPass: the nested loops of RegisterPath.py lines 42-47 remove from `a` and `b` while iterating over them. The model is a first-match scan over a snapshot of `a`. It leaves out the skipped elements and the `ValueError` of a second `a.remove(p)`.
- RegisterScript.SecondPassIsIdle: holds for the snapshot scan only. In the source, `a.remove(p)` inside `for p in a` makes the iteration skip the record after `p`; a skipped record can find its partner on a later turn and add a mean there. With the bins `[[0, 0.8e-9, 0.9e-9], [1.1e-9, 1.2e-9]]` (values of `proj`), the first turn pairs `0.8e-9` with `1.1e-9` and skips `0.9e-9`, which the second turn pairs with `1.2e-9`.
- RegisterScript.PairingTurn: for the same reason, a later turn of the source's loop can still pair records and change the midline tally. The model's later turns pair nothing.
- RegisterScript.RunScript: the state it reports after two turns or more is that of the snapshot scan. In the source it can hold more pairs and more means, for the reason given for SecondPassIsIdle.
- RegisterScript.RunScript: the `while` loop never ends with two bins or more. The model runs a given number of turns and reports `stillLooping`, so what happens after it (lines 65-77) is only modelled with fewer than two bins.
- MirrorJob.MirrorJob: a FreeCAD `Placement` holds only a rotation and a translation. When the normal is not a unit vector (as after a translating placeable, see `PlacedNormalIsTranslated`), `M` is not rigid and FreeCAD stores some other placement than `M * src`. The model stores the affine product exactly, so its contract holds for FreeCAD only when the normal is a unit vector.
- MirrorJob.CheckModel: the label is set through FreeCAD's `Label` property. When the document does not allow duplicate labels (FreeCAD's default), the source object already holds that label, so FreeCAD stores it with a numeric suffix. The model assigns the label as given, so `tgt.model[k].name == old(src.model[k].name)` holds for FreeCAD only when duplicate labels are allowed. The "Reverse" label of `MirrorJob.MirrorJob` is assigned as given too.
- MirrorJob: base objects are values held in an array. Two base objects that are the same FreeCAD object are not modelled, and neither are stocks shared between jobs.
- MirrorAxis.AdjustMirrorOrigin: returning the same object it updated is modelled as returning the updated value.
- FlipTransform.AxisFrameInverse: `T.inverse()` is modelled only for the pure translation `T`. General matrix inversion is not modelled.
- What the flip matrix does to the stock's bounding box for the two axis-aligned normals is not stated as a lemma of its own. `FlipMatrixFixesLine` and `FlipMatrixTurnsPerpendicular` give the general case.
