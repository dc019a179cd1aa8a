/** Cohesion and friction angle read from the material parameter vector by a
    pair of 1-based indices. */
module CohesionPhi {
  import opened Common

  /** `_get_cohesion_phi` / `get_cohesion_phi`.  `indices` is None or a
      tuple; an empty tuple counts as absent, a tuple of another length than
      two cannot be unpacked, and each index is used as `parameters[i - 1]`
      with Python's indexing. */
  function GetCohesionPhi(parameters: seq<real>, indices: Option<seq<int>>): (r: Result<(Option<real>, Option<real>)>)
    ensures (indices.None? || indices.value == []) ==> r == Ok((None, None))
    ensures indices.Some? && |indices.value| != 0 && |indices.value| != 2 ==> r == Err(ValueError)
    ensures indices.Some? && |indices.value| == 2 ==>
      (r.Ok? <==> (PyIndex(parameters, indices.value[0] - 1).Ok? && PyIndex(parameters, indices.value[1] - 1).Ok?))
    ensures indices.Some? && |indices.value| == 2 && r.Ok? ==>
      r.value == (Some(PyIndex(parameters, indices.value[0] - 1).value), Some(PyIndex(parameters, indices.value[1] - 1).value))
  {
    if indices.None? || indices.value == [] then Ok((None, None))
    else if |indices.value| != 2 then Err(ValueError)
    else
      var cIdx, phiIdx := indices.value[0], indices.value[1];
      var c :- PyIndex(parameters, cIdx - 1);
      var phi :- PyIndex(parameters, phiIdx - 1);
      Ok((Some(c), Some(phi)))
  }

  /** Indices within 1..|parameters| read exactly those (1-based) entries. */
  lemma OneBasedLookup(parameters: seq<real>, c: int, phi: int)
    requires 1 <= c <= |parameters| && 1 <= phi <= |parameters|
    ensures GetCohesionPhi(parameters, Some([c, phi])) == Ok((Some(parameters[c - 1]), Some(parameters[phi - 1])))
  {
  }

  /** An index past the end raises IndexError; it is not caught. */
  lemma IndexPastEndRaises(parameters: seq<real>, c: int, phi: int)
    requires c > |parameters| || phi > |parameters|
    ensures GetCohesionPhi(parameters, Some([c, phi])) == Err(IndexError)
  {
  }

  /** Index 0 becomes `parameters[-1]`: the last parameter is read. */
  lemma IndexZeroReadsLast(parameters: seq<real>, phi: int)
    requires parameters != [] && 1 <= phi <= |parameters|
    ensures GetCohesionPhi(parameters, Some([0, phi])) ==
      Ok((Some(parameters[|parameters| - 1]), Some(parameters[phi - 1])))
  {
  }

  /** The regression values: parameters [1, 2, 3, 4] with indices (3, 4). */
  lemma RegressionValues()
    ensures GetCohesionPhi([1.0, 2.0, 3.0, 4.0], Some([3, 4])) == Ok((Some(3.0), Some(4.0)))
    ensures GetCohesionPhi([1.0, 2.0, 3.0, 4.0], Some([])) == Ok((None, None))
  {
  }
}
