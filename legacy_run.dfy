/** The legacy module-level `run_simulation`: a single-stage run whose
    project edits are the time step, the end time and the initial stress,
    whose mesh edits use the two-argument first-time-step form, whose
    principal stresses follow the tensors' insertion order, whose results
    dictionary has ten keys and whose rendering knows only triaxial and
    direct shear. */
module LegacyRun {
  import opened Common
  import opened Json
  import opened Extract
  import opened GidOutput
  import opened Principal
  import opened CohesionPhi
  import Groups
  import Collector
  import opened RunPlan
  import opened RunPipeline
  import opened CoreRun

  // ---------------------------------------------------- project and mesh

  /** `set_project_parameters`: `end_time / num_steps` is evaluated before
      the first edit, so a zero step count raises before any call. */
  function LegacyProjectPlan(numSteps: int, endTime: real, pressure: real): Result<seq<ProjectCall>>
  {
    var ts :- Div(endTime, numSteps);
    Ok([UpdateProperty("time_step", ts), UpdateProperty("end_time", endTime), StressCall(pressure)])
  }

  /** The three edits, the time step being end_time / num_steps; and the
      legacy function is the pipelines' flat schema with a single step count. */
  lemma LegacyProjectSchema(numSteps: int, endTime: real, pressure: real, pipeline: Pipeline, inp: Inputs, data: Json)
    requires data.JObj? && "stages" !in Keys(data.members)
    requires inp.numSteps == Single(numSteps) && inp.endTime == endTime && inp.initialEffectiveCellPressure == pressure
    ensures var r := LegacyProjectPlan(numSteps, endTime, pressure);
      (r.Ok? <==> numSteps != 0) && (r.Err? ==> r.error == ZeroDivisionError) &&
      (r.Ok? ==> |r.value| == 3 && r.value[0].UpdateProperty? && r.value[0].name == "time_step" &&
                 r.value[0].value * (numSteps as real) == endTime &&
                 r.value[1] == UpdateProperty("end_time", endTime) &&
                 r.value[2] == UpdateNestedValue(STRESS_MODULE, "value", [-pressure, -pressure, -pressure, 0.0])) &&
      r == ProjectPlan(pipeline, inp, data)
  {
    StressVectorShape(pressure);
    ProjectPlanFlat(pipeline, inp, data);
  }

  /** `set_mdpa`: maximum strain, end time, the first time step from the
      step count and end time, then the cell pressure for triaxial and the
      middle strain for direct shear. The division happens inside the mesh
      editor (Mdpa.MdpaEditor.UpdateFirstTimestep), not here. */
  function LegacyMdpaPlan(testType: string, numSteps: int, endTime: real, maximumStrain: real, pressure: real): seq<MdpaCall>
  {
    [UpdateMaximumStrain(maximumStrain), UpdateEndTime(endTime), UpdateFirstTimestepOf(numSteps, endTime)] +
    (if testType == TRIAXIAL then [UpdateInitialEffectiveCellPressure(pressure)] else []) +
    (if testType == DIRECT_SHEAR then [UpdateMiddleMaximumStrain(maximumStrain)] else [])
  }

  /** The per-type edits are those of the pipelines for every test type but
      CRS, which the legacy function gives no displacement tables. */
  lemma LegacyMdpaEdits(inp: Inputs)
    requires inp.numSteps.Single?
    ensures var calls := LegacyMdpaPlan(inp.testType, inp.numSteps.n, inp.endTime, inp.maximumStrain,
                                        inp.initialEffectiveCellPressure);
      |calls| >= 3 &&
      calls[..3] == [UpdateMaximumStrain(inp.maximumStrain), UpdateEndTime(inp.endTime),
                     UpdateFirstTimestepOf(inp.numSteps.n, inp.endTime)] &&
      (inp.testType != CRS ==> calls[3..] == TypeEdits(inp)) &&
      (UpdateInitialEffectiveCellPressure(inp.initialEffectiveCellPressure) in calls <==> inp.testType == TRIAXIAL) &&
      (UpdateMiddleMaximumStrain(inp.maximumStrain) in calls <==> inp.testType == DIRECT_SHEAR) &&
      forall k :: 0 <= k < |calls| ==> !calls[k].InsertDisplacementTables? && !calls[k].UpdateTopDisplacementTables?
  {
    var calls := LegacyMdpaPlan(inp.testType, inp.numSteps.n, inp.endTime, inp.maximumStrain,
                                inp.initialEffectiveCellPressure);
    var head := [UpdateMaximumStrain(inp.maximumStrain), UpdateEndTime(inp.endTime),
                 UpdateFirstTimestepOf(inp.numSteps.n, inp.endTime)];
    var tail := (if inp.testType == TRIAXIAL then [UpdateInitialEffectiveCellPressure(inp.initialEffectiveCellPressure)] else []) +
                (if inp.testType == DIRECT_SHEAR then [UpdateMiddleMaximumStrain(inp.maximumStrain)] else []);
    assert calls == head + tail;
    assert calls[..3] == head;
    assert calls[3..] == tail;
    if inp.testType != CRS {
      assert TypeEdits(inp) == tail + [];
    }
  }

  // ------------------------------------------------------------- results

  /** What the legacy runner returns: seven series. */
  datatype LegacyOutput = LegacyOutput(
    tensors: Groups.Groups<Matrix>,
    yyStrain: seq<real>,
    volStrain: seq<real>,
    vonMises: seq<Item>,
    meanStress: seq<Item>,
    shearXy: seq<real>,
    shearStrainXy: seq<real>)

  /** The ten-key dictionary; `phi` holds the friction angle. */
  datatype LegacyResults = LegacyResults(
    yyStrain: seq<real>,
    volStrain: seq<real>,
    sigma1: seq<real>,
    sigma3: seq<real>,
    shearXy: seq<real>,
    shearStrainXy: seq<real>,
    meanStress: seq<Item>,
    vonMises: seq<Item>,
    cohesion: Option<real>,
    phi: Option<real>)

  /** The legacy dictionary as the core one without the three CRS series. */
  function Widen(res: LegacyResults): Collector.Results
  {
    Collector.Results(res.yyStrain, res.volStrain, res.sigma1, res.sigma3, res.shearXy, res.shearStrainXy,
      res.meanStress, res.vonMises, res.cohesion, res.phi, [], [], [])
  }

  /** `results[k]`: the CRS keys are absent. */
  function LegacyField(res: LegacyResults, k: Key): Option<Value>
  {
    if k == SigmaXx || k == SigmaYy || k == TimeSteps then None else Some(CoreField(Widen(res), k))
  }

  /** `run_simulation` after the solver: principal stresses in the order
      the tensors were inserted, cohesion and friction angle by 1-based
      index; an index error propagates. */
  method CollectLegacyResults(out: LegacyOutput, parameters: seq<real>, indices: Option<seq<int>>,
                              eigh: Matrix -> (real, real, real)) returns (r: Result<LegacyResults>)
    ensures r.Ok? <==> GetCohesionPhi(parameters, indices).Ok?
    ensures r.Err? ==> r.error == GetCohesionPhi(parameters, indices).error
    ensures r.Ok? ==>
      var tensors := InKeyOrder(out.tensors, out.tensors.order);
      var cp := GetCohesionPhi(parameters, indices).value;
      r.value == LegacyResults(out.yyStrain, out.volStrain, Mins(tensors, eigh), Maxs(tensors, eigh),
        out.shearXy, out.shearStrainXy, out.meanStress, out.vonMises, cp.0, cp.1)
    ensures r.Ok? ==>
      |r.value.sigma1| == |r.value.sigma3| && forall k :: 0 <= k < |r.value.sigma1| ==> r.value.sigma1[k] <= r.value.sigma3[k]
  {
    var sigma1, sigma3 := CalculatePrincipalStressesLegacy(out.tensors, eigh);
    var cp := GetCohesionPhi(parameters, indices);
    if cp.Err? {
      return Err(cp.error);
    }
    r := Ok(LegacyResults(out.yyStrain, out.volStrain, sigma1, sigma3, out.shearXy, out.shearStrainXy,
      out.meanStress, out.vonMises, cp.value.0, cp.value.1));
  }

  // ------------------------------------------------------------ rendering

  /** `_render_with_plotter`: nothing without a plotter; otherwise the
      triaxial or direct-shear plot, and ValueError for any other type,
      CRS included. */
  function LegacyRender(testType: string, hasPlotter: bool, res: LegacyResults): Result<Option<PlotCall>>
  {
    if !hasPlotter then Ok(None)
    else if testType == TRIAXIAL || testType == DIRECT_SHEAR then
      var kind := if testType == TRIAXIAL then TriaxialPlot else DirectShearPlot;
      var keys := PlotKeys(kind);
      if forall i :: 0 <= i < |keys| ==> LegacyField(res, keys[i]).Some? then
        Ok(Some(PlotCall(kind, seq(|keys|, i requires 0 <= i < |keys| => LegacyField(res, keys[i]).value))))
      else Err(KeyError)
    else Err(ValueError)
  }

  /** Without a plotter nothing happens; with one, the two supported types
      plot exactly what the core's `_render` plots for the same series, and
      every other type raises ValueError. */
  lemma LegacyRenderDispatch(testType: string, hasPlotter: bool, res: LegacyResults)
    ensures !hasPlotter ==> LegacyRender(testType, hasPlotter, res) == Ok(None)
    ensures hasPlotter ==>
      (LegacyRender(testType, hasPlotter, res).Ok? <==> testType == TRIAXIAL || testType == DIRECT_SHEAR)
    ensures hasPlotter && testType != TRIAXIAL && testType != DIRECT_SHEAR ==>
      LegacyRender(testType, hasPlotter, res) == Err(ValueError)
    ensures hasPlotter && (testType == TRIAXIAL || testType == DIRECT_SHEAR) ==>
      LegacyRender(testType, hasPlotter, res) == Ok(Some(Render(testType, Widen(res)).value))
  {
    if hasPlotter && (testType == TRIAXIAL || testType == DIRECT_SHEAR) {
      var kind := if testType == TRIAXIAL then TriaxialPlot else DirectShearPlot;
      var keys := PlotKeys(kind);
      forall i | 0 <= i < |keys|
        ensures LegacyField(res, keys[i]) == Some(CoreField(Widen(res), keys[i]))
      {
      }
      var args := seq(|keys|, i requires 0 <= i < |keys| => LegacyField(res, keys[i]).value);
      assert args == Args(Widen(res), keys);
      assert LegacyRender(testType, hasPlotter, res) == Ok(Some(PlotCall(kind, args)));
      assert Render(testType, Widen(res)) == Ok(PlotCall(kind, Args(Widen(res), keys)));
    }
  }

  /** The warning for axes given without a plotter. */
  const AXES_WITHOUT_PLOTTER: LogEntry := Message(WarnLevel,
    "Axes were provided but no plotter object was passed. The core no longer creates a Matplotlib plotter " +
    "automatically. Please construct a plotter in the UI layer and pass it via `plotter=`.")

  /** The warnings of the render step and the plot it makes. */
  datatype Rendered = Rendered(log: seq<LogEntry>, call: Result<Option<PlotCall>>)

  /** The end of `run_simulation`: a missing plotter is replaced by the
      no-op plotter (with a warning when axes were given) before rendering,
      so the test type is always checked. */
  function RenderStep(testType: string, hasPlotter: bool, axes: bool, res: LegacyResults): Rendered
  {
    Rendered(if !hasPlotter && axes then [AXES_WITHOUT_PLOTTER] else [],
             LegacyRender(testType, true, res))
  }

  /** Even a run without a plotter raises ValueError for CRS and any other
      unsupported type, and warns about axes only when no plotter was given. */
  lemma HeadlessRunChecksType(testType: string, hasPlotter: bool, axes: bool, res: LegacyResults)
    ensures var step := RenderStep(testType, hasPlotter, axes, res);
      (step.call.Ok? <==> testType == TRIAXIAL || testType == DIRECT_SHEAR) &&
      (step.call.Err? ==> step.call.error == ValueError) &&
      (step.call.Ok? ==> step.call.value.Some?) &&
      (AXES_WITHOUT_PLOTTER in step.log <==> !hasPlotter && axes) && |step.log| <= 1
  {
    LegacyRenderDispatch(testType, true, res);
  }
}
