/** Python's `math.isclose` over reals:
    `|a - b| <= max(rel_tol * max(|a|, |b|), abs_tol)`. The infinite values
    `isclose` also handles are kept out of it by the callers (an absent
    midline is an `Option`), so only the finite case is modelled. */
module Tolerance {
  import opened Geometry

  /** The default `rel_tol` of `math.isclose`. */
  const REL_TOL: real := 1e-9

  /** The `abs_tol=1e-9` both registration scripts pass for projections and midlines. */
  const PIN_TOL: real := 1e-9

  function Max(a: real, b: real): real { if a < b then b else a }

  predicate IsClose(a: real, b: real, relTol: real, absTol: real)
  {
    AbsReal(a - b) <= Max(relTol * Max(AbsReal(a), AbsReal(b)), absTol)
  }

  /** With the default relative tolerance, `isclose` accepts every pair within
      `absTol`, and every pair it accepts is within `absTol` or within the
      relative bound `1e-9 * max(|a|, |b|)`; it is symmetric and reflexive. */
  lemma IsCloseBounds(a: real, b: real, absTol: real)
    requires absTol >= 0.0
    ensures AbsReal(a - b) <= absTol ==> IsClose(a, b, REL_TOL, absTol)
    ensures IsClose(a, b, REL_TOL, absTol) ==>
              AbsReal(a - b) <= absTol || AbsReal(a - b) <= REL_TOL * Max(AbsReal(a), AbsReal(b))
    ensures IsClose(a, b, REL_TOL, absTol) == IsClose(b, a, REL_TOL, absTol)
    ensures IsClose(a, a, REL_TOL, absTol)
  {
    assert AbsReal(a - b) == AbsReal(b - a);
    assert Max(AbsReal(a), AbsReal(b)) == Max(AbsReal(b), AbsReal(a));
  }
}
