/** The per-stage reductions of the collectors and of the generic runner:
    stress tensors, shear stress, strains, scalar stresses and σxx/σyy.

    Every vector-reading extractor follows the same shape: records without
    values are skipped, the first Gauss-point item of the first point is
    read, and it must be a vector long enough for the components used.  The
    collectors also skip a None item; the generic runner's tensor, shear and
    strain extractors do not, and fail on it with a TypeError.  That choice is
    the `skipNull` flag. */
module Extract {
  import opened Common
  import opened GidOutput
  import Groups

  type Matrix = seq<seq<real>>

  /** The head of every extractor loop body: the vector one record
      contributes (None when the loop `continue`s past it), or the exception
      reading it raises. */
  function RecordVector(r: Record, skipNull: bool, need: nat, short: Error): (v: Result<Option<seq<real>>>)
    ensures v.Ok? && v.value.Some? ==> |v.value.value| >= need
    ensures r.values == [] ==> v == Ok(None)
  {
    if r.values == [] then Ok(None)
    else
      var first :- FirstValueOrNone(r);
      match first
      case Null => if skipNull then Ok(None) else Err(TypeError)
      case Num(_) => Err(TypeError)
      case Vec(xs) => if |xs| < need then Err(short) else Ok(Some(xs))
  }

  /** The (time, vector) pairs contributed by the records, in record order,
      or the first record's exception. */
  function Vectors(rs: seq<Record>, skipNull: bool, need: nat, short: Error): (v: Result<seq<(real, seq<real>)>>)
    ensures v.Ok? ==> |v.value| <= |rs|
    ensures v.Ok? ==> forall k :: 0 <= k < |v.value| ==> |v.value[k].1| >= need
  {
    if rs == [] then Ok([])
    else
      var init :- Vectors(rs[..|rs| - 1], skipNull, need, short);
      var last :- RecordVector(rs[|rs| - 1], skipNull, need, short);
      Ok(if last.Some? then init + [(rs[|rs| - 1].time, last.value)] else init)
  }

  /** Once a prefix fails, the whole sequence fails with the same exception. */
  lemma {:induction false} VectorsFailureSticks(rs: seq<Record>, i: nat, skipNull: bool, need: nat, short: Error)
    requires i <= |rs|
    requires Vectors(rs[..i], skipNull, need, short).Err?
    ensures Vectors(rs, skipNull, need, short) == Vectors(rs[..i], skipNull, need, short)
  {
    if i < |rs| {
      assert rs[..|rs| - 1][..i] == rs[..i];
      VectorsFailureSticks(rs[..|rs| - 1], i, skipNull, need, short);
    } else {
      assert rs[..i] == rs;
    }
  }

  /** With well-formed records (each has at least one point, whose first item
      is a long enough vector) nothing fails and every record contributes. */
  lemma {:induction false} VectorsOfWellFormed(rs: seq<Record>, skipNull: bool, need: nat, short: Error)
    requires forall k :: 0 <= k < |rs| ==>
      |rs[k].values| > 0 && rs[k].values[0].value.List? && |rs[k].values[0].value.items| > 0 &&
      rs[k].values[0].value.items[0].Vec? && |rs[k].values[0].value.items[0].xs| >= need
    ensures Vectors(rs, skipNull, need, short).Ok?
    ensures |Vectors(rs, skipNull, need, short).value| == |rs|
    ensures forall k :: 0 <= k < |rs| ==>
      Vectors(rs, skipNull, need, short).value[k] == (rs[k].time, rs[k].values[0].value.items[0].xs)
  {
    if rs != [] {
      VectorsOfWellFormed(rs[..|rs| - 1], skipNull, need, short);
    }
  }

  /** One step of an extractor loop: record `rs[i]` contributes its vector,
      or nothing. */
  lemma {:induction false} VectorsSnocOk(rs: seq<Record>, i: nat, skipNull: bool, need: nat, short: Error,
                      kept: seq<(real, seq<real>)>, last: Option<seq<real>>)
    requires i < |rs|
    requires Vectors(rs[..i], skipNull, need, short) == Ok(kept)
    requires RecordVector(rs[i], skipNull, need, short) == Ok(last)
    ensures Vectors(rs[..i + 1], skipNull, need, short) ==
      Ok(if last.Some? then kept + [(rs[i].time, last.value)] else kept)
  {
    assert rs[..i + 1][..i] == rs[..i];
  }

  /** One step of an extractor loop: record `rs[i]` raises, and so does the
      whole extraction. */
  lemma {:induction false} VectorsSnocErr(rs: seq<Record>, i: nat, skipNull: bool, need: nat, short: Error)
    requires i < |rs|
    requires Vectors(rs[..i], skipNull, need, short).Ok?
    requires RecordVector(rs[i], skipNull, need, short).Err?
    ensures Vectors(rs, skipNull, need, short) == Err(RecordVector(rs[i], skipNull, need, short).error)
  {
    assert rs[..i + 1][..i] == rs[..i];
    VectorsFailureSticks(rs, i + 1, skipNull, need, short);
  }

  // ---------------------------------------------------------------- tensors

  /** The 3×3 tensor of a Voigt vector [s0, s1, s2, s3, s4, s5]. */
  function Tensor(s: seq<real>): (m: Matrix)
    requires |s| >= 6
    ensures |m| == 3
  {
    [[s[0], s[3], s[5]], [s[3], s[1], s[4]], [s[5], s[4], s[2]]]
  }

  /** The tensor is symmetric: normal components on the diagonal, the shear
      components xy, yz and xz mirrored about it. */
  lemma TensorIsSymmetric(s: seq<real>)
    requires |s| >= 6
    ensures forall i :: 0 <= i < 3 ==> |Tensor(s)[i]| == 3
    ensures forall i, j :: 0 <= i < 3 && 0 <= j < 3 ==> Tensor(s)[i][j] == Tensor(s)[j][i]
    ensures Tensor(s)[0][0] == s[0] && Tensor(s)[1][1] == s[1] && Tensor(s)[2][2] == s[2]
    ensures Tensor(s)[0][1] == s[3] && Tensor(s)[1][2] == s[4] && Tensor(s)[0][2] == s[5]
  {
  }

  function TensorPairs(kept: seq<(real, seq<real>)>): (ps: seq<(real, Matrix)>)
    requires forall k :: 0 <= k < |kept| ==> |kept[k].1| >= 6
    ensures |ps| == |kept|
  {
    seq(|kept|, k requires 0 <= k < |kept| => (kept[k].0, Tensor(kept[k].1)))
  }

  lemma TensorPairsSnoc(kept: seq<(real, seq<real>)>, t: real, xs: seq<real>)
    requires forall k :: 0 <= k < |kept| ==> |kept[k].1| >= 6
    requires |xs| >= 6
    ensures TensorPairs(kept + [(t, xs)]) == TensorPairs(kept) + [(t, Tensor(xs))]
  {
  }

  /** What `_extract_stress_tensors` returns for these records. */
  function StressTensors(rs: seq<Record>, skipNull: bool): (r: Result<Groups.Groups<Matrix>>)
    ensures r.Ok? ==> Groups.Valid(r.value)
  {
    var kept :- Vectors(rs, skipNull, 6, IndexError);
    Ok(Groups.FromPairs(TensorPairs(kept)))
  }

  /** The first record that raises decides the exception. */
  lemma StressTensorsErr(rs: seq<Record>, i: nat, skipNull: bool)
    requires i < |rs|
    requires StressTensors(rs[..i], skipNull).Ok?
    requires RecordVector(rs[i], skipNull, 6, IndexError).Err?
    ensures StressTensors(rs, skipNull) == Err(RecordVector(rs[i], skipNull, 6, IndexError).error)
  {
    VectorsSnocErr(rs, i, skipNull, 6, IndexError);
  }

  /** One more record: its tensor, if it contributes one, is grouped under
      its time. */
  lemma StressTensorsSnoc(rs: seq<Record>, i: nat, skipNull: bool)
    requires i < |rs|
    requires StressTensors(rs[..i], skipNull).Ok?
    requires RecordVector(rs[i], skipNull, 6, IndexError).Ok?
    ensures var v := RecordVector(rs[i], skipNull, 6, IndexError).value;
      var g := StressTensors(rs[..i], skipNull).value;
      StressTensors(rs[..i + 1], skipNull) == Ok(if v.Some? then Groups.Extend(g, rs[i].time, [Tensor(v.value)]) else g)
  {
    var kept := Vectors(rs[..i], skipNull, 6, IndexError).value;
    var v := RecordVector(rs[i], skipNull, 6, IndexError).value;
    VectorsSnocOk(rs, i, skipNull, 6, IndexError, kept, v);
    if v.Some? {
      TensorPairsSnoc(kept, rs[i].time, v.value);
      Groups.FromPairsSnoc(TensorPairs(kept), rs[i].time, Tensor(v.value));
    }
  }

  /** `_extract_stress_tensors`: one symmetric tensor per contributing record,
      grouped by the record's time. */
  method ExtractStressTensors(rs: seq<Record>, skipNull: bool) returns (r: Result<Groups.Groups<Matrix>>)
    ensures r == StressTensors(rs, skipNull)
  {
    var reshaped: Groups.Groups<Matrix> := Groups.Empty();
    var i := 0;
    assert rs[..0] == [];
    while i < |rs|
      invariant 0 <= i <= |rs|
      invariant StressTensors(rs[..i], skipNull) == Ok(reshaped)
    {
      var sublist := RecordVector(rs[i], skipNull, 6, IndexError);
      if sublist.Err? {
        StressTensorsErr(rs, i, skipNull);
        return Err(sublist.error);
      }
      StressTensorsSnoc(rs, i, skipNull);
      if sublist.value.Some? {
        var tensor := Tensor(sublist.value.value);
        reshaped := Groups.Extend(reshaped, rs[i].time, [tensor]);
      }
      i := i + 1;
    }
    assert rs[..i] == rs;
    r := Ok(reshaped);
  }

  /** Tensors sit under their record's time in record order, and the times
      appear in order of first occurrence. */
  lemma {:induction false} TensorsGroupedByTime(rs: seq<Record>, skipNull: bool, t: real)
    requires StressTensors(rs, skipNull).Ok?
    ensures var kept := Vectors(rs, skipNull, 6, IndexError).value;
      var g := StressTensors(rs, skipNull).value;
      g.order == Groups.FirstAppearances(TensorPairs(kept)) &&
      Groups.Get(g, t) == Groups.ValuesAt(TensorPairs(kept), t)
  {
    Groups.FromPairsContents(TensorPairs(Vectors(rs, skipNull, 6, IndexError).value));
  }

  // ------------------------------------------------------------ shear stress

  function Components(kept: seq<(real, seq<real>)>, c: nat): (xs: seq<real>)
    requires forall k :: 0 <= k < |kept| ==> |kept[k].1| > c
    ensures |xs| == |kept|
  {
    seq(|kept|, k requires 0 <= k < |kept| => kept[k].1[c])
  }

  lemma ComponentsSnoc(kept: seq<(real, seq<real>)>, t: real, xs: seq<real>, c: nat)
    requires forall k :: 0 <= k < |kept| ==> |kept[k].1| > c
    requires |xs| > c
    ensures Components(kept + [(t, xs)], c) == Components(kept, c) + [xs[c]]
  {
  }

  /** What `_extract_shear_stress_xy` returns: component 3 of each vector. */
  function ShearStressXy(rs: seq<Record>, skipNull: bool): Result<seq<real>>
  {
    var kept :- Vectors(rs, skipNull, 4, IndexError);
    Ok(Components(kept, 3))
  }

  method ExtractShearStressXy(rs: seq<Record>, skipNull: bool) returns (r: Result<seq<real>>)
    ensures r == ShearStressXy(rs, skipNull)
  {
    var shear: seq<real> := [];
    ghost var kept: seq<(real, seq<real>)> := [];
    var i := 0;
    while i < |rs|
      invariant 0 <= i <= |rs|
      invariant Vectors(rs[..i], skipNull, 4, IndexError) == Ok(kept)
      invariant shear == Components(kept, 3)
    {
      var components := RecordVector(rs[i], skipNull, 4, IndexError);
      if components.Err? {
        VectorsSnocErr(rs, i, skipNull, 4, IndexError);
        return Err(components.error);
      }
      if components.value.Some? {
        var xs := components.value.value;
        assert Vectors(rs[..i + 1], skipNull, 4, IndexError) == Ok(kept + [(rs[i].time, xs)]) by {
          VectorsSnocOk(rs, i, skipNull, 4, IndexError, kept, components.value);
        }
        assert shear + [xs[3]] == Components(kept + [(rs[i].time, xs)], 3) by {
          ComponentsSnoc(kept, rs[i].time, xs, 3);
        }
        shear := shear + [xs[3]];
        kept := kept + [(rs[i].time, xs)];
      } else {
        assert Vectors(rs[..i + 1], skipNull, 4, IndexError) == Ok(kept) by {
          VectorsSnocOk(rs, i, skipNull, 4, IndexError, kept, components.value);
        }
      }
      i := i + 1;
    }
    assert rs[..i] == rs;
    r := Ok(shear);
  }

  // ----------------------------------------------------------------- strains

  datatype Strains = Strains(yy: seq<real>, vol: seq<real>, shearXy: seq<real>)

  function VolumetricStrains(kept: seq<(real, seq<real>)>): (xs: seq<real>)
    requires forall k :: 0 <= k < |kept| ==> |kept[k].1| >= 4
    ensures |xs| == |kept|
  {
    seq(|kept|, k requires 0 <= k < |kept| => kept[k].1[0] + kept[k].1[1] + kept[k].1[2])
  }

  lemma VolumetricStrainsSnoc(kept: seq<(real, seq<real>)>, t: real, xs: seq<real>)
    requires forall k :: 0 <= k < |kept| ==> |kept[k].1| >= 4
    requires |xs| >= 4
    ensures VolumetricStrains(kept + [(t, xs)]) == VolumetricStrains(kept) + [xs[0] + xs[1] + xs[2]]
  {
  }

  /** What `_compute_strains` returns: yy = e1, vol = e0 + e1 + e2, xy = e3;
      a vector shorter than four cannot be unpacked (ValueError). */
  function StrainsOf(rs: seq<Record>, skipNull: bool): Result<Strains>
  {
    var kept :- Vectors(rs, skipNull, 4, ValueError);
    Ok(Strains(Components(kept, 1), VolumetricStrains(kept), Components(kept, 3)))
  }

  method ComputeStrains(rs: seq<Record>, skipNull: bool) returns (r: Result<Strains>)
    ensures r == StrainsOf(rs, skipNull)
    ensures r.Ok? ==> |r.value.yy| == |r.value.vol| == |r.value.shearXy| <= |rs|
  {
    var yy: seq<real>, vol: seq<real>, shearXy: seq<real> := [], [], [];
    ghost var kept: seq<(real, seq<real>)> := [];
    var i := 0;
    while i < |rs|
      invariant 0 <= i <= |rs|
      invariant Vectors(rs[..i], skipNull, 4, ValueError) == Ok(kept)
      invariant yy == Components(kept, 1)
      invariant vol == VolumetricStrains(kept)
      invariant shearXy == Components(kept, 3)
    {
      var firstValue := RecordVector(rs[i], skipNull, 4, ValueError);
      if firstValue.Err? {
        VectorsSnocErr(rs, i, skipNull, 4, ValueError);
        return Err(firstValue.error);
      }
      if firstValue.value.Some? {
        var xs := firstValue.value.value;
        var next := kept + [(rs[i].time, xs)];
        assert Vectors(rs[..i + 1], skipNull, 4, ValueError) == Ok(next) by {
          VectorsSnocOk(rs, i, skipNull, 4, ValueError, kept, firstValue.value);
        }
        var epsXx, epsYy, epsZz, epsXy := xs[0], xs[1], xs[2], xs[3];
        assert vol + [epsXx + epsYy + epsZz] == VolumetricStrains(next) by {
          VolumetricStrainsSnoc(kept, rs[i].time, xs);
        }
        assert yy + [epsYy] == Components(next, 1) by {
          ComponentsSnoc(kept, rs[i].time, xs, 1);
        }
        assert shearXy + [epsXy] == Components(next, 3) by {
          ComponentsSnoc(kept, rs[i].time, xs, 3);
        }
        vol := vol + [epsXx + epsYy + epsZz];
        yy := yy + [epsYy];
        shearXy := shearXy + [epsXy];
        kept := next;
      } else {
        assert Vectors(rs[..i + 1], skipNull, 4, ValueError) == Ok(kept) by {
          VectorsSnocOk(rs, i, skipNull, 4, ValueError, kept, firstValue.value);
        }
      }
      i := i + 1;
    }
    assert rs[..i] == rs;
    r := Ok(Strains(yy, vol, shearXy));
  }

  // --------------------------------------------------------- scalar stresses

  /** `_compute_scalar_stresses`: item 1 of the first point of every record
      that has values, kept as it is. */
  function ScalarStresses(rs: seq<Record>): (r: Result<seq<Item>>)
    ensures r.Ok? ==> |r.value| <= |rs|
  {
    if rs == [] then Ok([])
    else
      var init :- ScalarStresses(rs[..|rs| - 1]);
      var last := rs[|rs| - 1];
      if last.values == [] then Ok(init)
      else match last.values[0].value
        case Absent => Err(KeyError)
        case Atom => Err(TypeError)
        case List(items) => if |items| < 2 then Err(IndexError) else Ok(init + [items[1]])
  }

  /** The records that have values, in order. */
  function WithValues(rs: seq<Record>): (w: seq<Record>)
    ensures |w| <= |rs|
    ensures forall j :: 0 <= j < |w| ==> w[j].values != [] && w[j] in rs
  {
    if rs == [] then []
    else
      var init := WithValues(rs[..|rs| - 1]);
      assert forall j :: 0 <= j < |init| ==> init[j] in rs by {
        forall j | 0 <= j < |init| ensures init[j] in rs {
          var k :| 0 <= k < |rs| - 1 && rs[..|rs| - 1][k] == init[j];
          assert rs[k] == init[j];
        }
      }
      if rs[|rs| - 1].values != [] then init + [rs[|rs| - 1]] else init
  }

  /** The tri3 filter applied when bucketing guarantees that the scalar
      reduction never fails; it keeps the middle Gauss-point value of the
      first point of every record that has values, in record order, and
      skips the records without values. */
  lemma {:induction false} ScalarStressesOfTri3(rs: seq<Record>)
    requires forall k :: 0 <= k < |rs| ==> IsTri3ElementGp(rs[k].values)
    ensures ScalarStresses(rs).Ok?
    ensures var w := WithValues(rs);
      (forall j :: 0 <= j < |w| ==> IsTri3ElementGp(w[j].values)) &&
      |ScalarStresses(rs).value| == |w| &&
      forall j :: 0 <= j < |w| ==> ScalarStresses(rs).value[j] == w[j].values[0].value.items[1]
  {
    var w := WithValues(rs);
    forall j | 0 <= j < |w| ensures IsTri3ElementGp(w[j].values) {
      var k :| 0 <= k < |rs| && rs[k] == w[j];
    }
    if rs != [] {
      var n := |rs| - 1;
      ScalarStressesOfTri3(rs[..n]);
      var last := rs[n];
      if last.values != [] {
        assert last.values[0].value.List? && |last.values[0].value.items| == 3;
      }
    }
  }

  /** Records that all have values: one scalar per record, in order. */
  lemma {:induction false} ScalarStressesOneEach(rs: seq<Record>)
    requires forall k :: 0 <= k < |rs| ==>
      rs[k].values != [] && rs[k].values[0].value.List? && |rs[k].values[0].value.items| >= 2
    ensures ScalarStresses(rs).Ok?
    ensures |ScalarStresses(rs).value| == |rs|
    ensures forall k :: 0 <= k < |rs| ==> ScalarStresses(rs).value[k] == rs[k].values[0].value.items[1]
  {
    if rs != [] {
      ScalarStressesOneEach(rs[..|rs| - 1]);
    }
  }

  // ------------------------------------------------------------ sigma xx, yy

  datatype SigmaXxYy = SigmaXxYy(xx: seq<real>, yy: seq<real>)

  /** What `_extract_sigma_xx_yy` returns: components 0 and 1 of every record
      whose first value is not None, in every variant. */
  function SigmaXxYyOf(rs: seq<Record>): Result<SigmaXxYy>
  {
    var kept :- Vectors(rs, true, 2, IndexError);
    Ok(SigmaXxYy(Components(kept, 0), Components(kept, 1)))
  }

  method ExtractSigmaXxYy(rs: seq<Record>) returns (r: Result<SigmaXxYy>)
    ensures r == SigmaXxYyOf(rs)
    ensures r.Ok? ==> |r.value.xx| == |r.value.yy| <= |rs|
  {
    var xx: seq<real>, yy: seq<real> := [], [];
    ghost var kept: seq<(real, seq<real>)> := [];
    var i := 0;
    while i < |rs|
      invariant 0 <= i <= |rs|
      invariant Vectors(rs[..i], true, 2, IndexError) == Ok(kept)
      invariant xx == Components(kept, 0)
      invariant yy == Components(kept, 1)
    {
      var stressVec := RecordVector(rs[i], true, 2, IndexError);
      if stressVec.Err? {
        VectorsSnocErr(rs, i, true, 2, IndexError);
        return Err(stressVec.error);
      }
      if stressVec.value.Some? {
        var xs := stressVec.value.value;
        var next := kept + [(rs[i].time, xs)];
        assert Vectors(rs[..i + 1], true, 2, IndexError) == Ok(next) by {
          VectorsSnocOk(rs, i, true, 2, IndexError, kept, stressVec.value);
        }
        assert xx + [xs[0]] == Components(next, 0) by {
          ComponentsSnoc(kept, rs[i].time, xs, 0);
        }
        assert yy + [xs[1]] == Components(next, 1) by {
          ComponentsSnoc(kept, rs[i].time, xs, 1);
        }
        xx := xx + [xs[0]];
        yy := yy + [xs[1]];
        kept := next;
      } else {
        assert Vectors(rs[..i + 1], true, 2, IndexError) == Ok(kept) by {
          VectorsSnocOk(rs, i, true, 2, IndexError, kept, stressVec.value);
        }
      }
      i := i + 1;
    }
    assert rs[..i] == rs;
    r := Ok(SigmaXxYy(xx, yy));
  }
}
