/** Joining the yy-strain series of successive stages so that the curve is
    continuous: every stage is shifted by the last stitched value so far. */
module StrainOffset {
  import opened Common

  /** `[val + c for val in xs]`. */
  function Shift(xs: seq<real>, c: real): (r: seq<real>)
    ensures |r| == |xs|
    ensures forall k :: 0 <= k < |xs| ==> r[k] == xs[k] + c
  {
    seq(|xs|, k requires 0 <= k < |xs| => xs[k] + c)
  }

  /** `xs[-1]` when `xs` is non-empty, `d` otherwise. */
  function LastOr(xs: seq<real>, d: real): real
  {
    if xs == [] then d else xs[|xs| - 1]
  }

  /** The collectors' rule: shift each stage by `cumulative`, then take the
      last adjusted value as the new `cumulative` when the stage is non-empty. */
  function StitchFrom(stages: seq<seq<real>>, cumulative: real): seq<real>
  {
    if stages == [] then []
    else
      var adjusted := Shift(stages[0], cumulative);
      adjusted + StitchFrom(stages[1..], LastOr(adjusted, cumulative))
  }

  /** `cumulative` after all the stages. */
  function FinalOffset(stages: seq<seq<real>>, cumulative: real): real
  {
    if stages == [] then cumulative
    else FinalOffset(stages[1..], LastOr(Shift(stages[0], cumulative), cumulative))
  }

  /** The stitched series with the offset starting at 0.0. */
  function Stitch(stages: seq<seq<real>>): seq<real>
  {
    StitchFrom(stages, 0.0)
  }

  /** `_apply_cumulative_strain_offset`. */
  method ApplyCumulativeStrainOffset(strainStages: seq<seq<real>>) returns (combined: seq<real>)
    ensures combined == Stitch(strainStages)
  {
    var cumulative := 0.0;
    combined := [];
    var i := 0;
    assert strainStages[..0] == [];
    while i < |strainStages|
      invariant 0 <= i <= |strainStages|
      invariant combined == Stitch(strainStages[..i])
      invariant cumulative == LastOr(combined, 0.0)
    {
      var stage := strainStages[i];
      var adjusted := Shift(stage, cumulative);
      assert combined + adjusted == Stitch(strainStages[..i + 1]) by {
        assert strainStages[..i + 1] == strainStages[..i] + [stage];
        StitchSnoc(strainStages[..i], stage);
      }
      var next := cumulative;
      if adjusted != [] {
        next := adjusted[|adjusted| - 1];
      }
      assert next == LastOr(combined + adjusted, 0.0) by {
        LastOrAppend(combined, adjusted, 0.0);
      }
      combined := combined + adjusted;
      cumulative := next;
      i := i + 1;
    }
    assert strainStages[..i] == strainStages;
  }

  lemma LastOrAppend(xs: seq<real>, ys: seq<real>, d: real)
    ensures LastOr(xs + ys, d) == if ys == [] then LastOr(xs, d) else ys[|ys| - 1]
  {
    if ys == [] {
      assert xs + ys == xs;
    }
  }

  /** The offset left behind is the last stitched value, or the starting
      offset when every stage was empty. */
  lemma {:induction false} FinalOffsetIsLast(stages: seq<seq<real>>, c: real)
    ensures FinalOffset(stages, c) == LastOr(StitchFrom(stages, c), c)
  {
    if stages != [] {
      var adjusted := Shift(stages[0], c);
      FinalOffsetIsLast(stages[1..], LastOr(adjusted, c));
    }
  }

  lemma {:induction false} StitchFromSnoc(stages: seq<seq<real>>, s: seq<real>, c: real)
    ensures StitchFrom(stages + [s], c) == StitchFrom(stages, c) + Shift(s, FinalOffset(stages, c))
  {
    if stages == [] {
      assert [s][1..] == [];
    } else {
      assert (stages + [s])[1..] == stages[1..] + [s];
      StitchFromSnoc(stages[1..], s, LastOr(Shift(stages[0], c), c));
    }
  }

  /** A later stage is appended shifted by the last stitched value so far
      (0.0 while nothing has been stitched yet): this is the generic runner's
      formulation, so both rules give the same series. */
  lemma {:induction false} StitchSnoc(stages: seq<seq<real>>, s: seq<real>)
    ensures Stitch(stages + [s]) == Stitch(stages) + Shift(s, LastOr(Stitch(stages), 0.0))
  {
    StitchFromSnoc(stages, s, 0.0);
    FinalOffsetIsLast(stages, 0.0);
  }

  /** Stitching keeps every value: its length is the sum of the stage lengths. */
  lemma {:induction false} StitchLength(stages: seq<seq<real>>, c: real)
    ensures |StitchFrom(stages, c)| == |Flatten(stages)|
  {
    if stages != [] {
      var init := stages[..|stages| - 1];
      var last := stages[|stages| - 1];
      assert stages == init + [last];
      StitchFromSnoc(init, last, c);
      StitchLength(init, c);
    }
  }

  /** The first stage is unchanged, because the offset starts at 0.0. */
  lemma {:induction false} FirstStageUnchanged(stages: seq<seq<real>>)
    requires stages != []
    ensures |Stitch(stages)| >= |stages[0]|
    ensures Stitch(stages)[..|stages[0]|] == stages[0]
  {
    var adjusted := Shift(stages[0], 0.0);
    assert adjusted == stages[0];
  }

  /** An empty stage leaves the offset alone, so it can be dropped. */
  lemma {:induction false} EmptyStageNeutral(before: seq<seq<real>>, after: seq<seq<real>>, c: real)
    ensures StitchFrom(before + [[]] + after, c) == StitchFrom(before + after, c)
  {
    if before == [] {
      assert before + [[]] + after == [[]] + after;
      assert before + after == after;
      assert ([[]] + after)[1..] == after;
      assert Shift([], c) == [];
    } else {
      assert (before + [[]] + after)[1..] == before[1..] + [[]] + after;
      assert (before + after)[1..] == before[1..] + after;
      assert (before + [[]] + after)[0] == before[0] == (before + after)[0];
      EmptyStageNeutral(before[1..], after, LastOr(Shift(before[0], c), c));
    }
  }

  /** Two identical loading stages of the regression test: the second starts
      where the first ended. */
  lemma {:induction false} TwoStageRegression()
    ensures Stitch([[0.0, -0.05, -0.1, -0.15, -0.2], [0.0, -0.05, -0.1, -0.15, -0.2]]) ==
      [0.0, -0.05, -0.1, -0.15, -0.2, -0.2, -0.25, -0.3, -0.35, -0.4]
  {
    var stage := [0.0, -0.05, -0.1, -0.15, -0.2];
    var first := Shift(stage, 0.0);
    assert first == stage;
    var second := Shift(stage, -0.2);
    assert second == [-0.2, -0.25, -0.3, -0.35, -0.4];
    assert [stage, stage][1..] == [stage];
    assert StitchFrom([stage], -0.2) == second + StitchFrom([], -0.2);
  }
}
