/** The `RunSimulation` classes of the model pipeline and of the core
    pipeline. They share template selection, the constitutive law, the mesh
    edits and the output names (module RunPlan) and differ in two helpers:
    CRS preparation raises in the model and returns quietly in the core
    when a list is missing, and the staged timing checks the list lengths
    in the model and falls back to the single end time in the core. Here
    they are one class with the pipeline as a field. */
module RunPipeline {
  import opened Common
  import opened Json
  import opened RunPlan

  datatype Pipeline = ModelPipeline | CorePipeline

  /** `xs[n:]`, which is empty when `n` is past the end. */
  function Drop<T>(xs: seq<T>, n: nat): seq<T>
  {
    if n >= |xs| then [] else xs[n..]
  }

  /** One `append_stage(duration=d, steps=s)` per pair of the zip. */
  function ZipAppends(ds: seq<real>, ss: seq<int>): seq<ProjectCall>
  {
    seq(Min(|ds|, |ss|), k requires 0 <= k < Min(|ds|, |ss|) => AppendStage(ds[k], ss[k]))
  }

  /** The appends for the stages past the `current` ones. */
  function CrsAppends(ds: seq<real>, ss: seq<int>, current: nat): seq<ProjectCall>
  {
    ZipAppends(Drop(ds, current), Drop(ss, current))
  }

  /** The stages from index `current` on are appended in order, as many as
      both lists reach; with at least as many step counts as durations that
      is exactly the number of missing stages. */
  lemma CrsAppendsCount(ds: seq<real>, ss: seq<int>, current: nat)
    ensures |CrsAppends(ds, ss, current)| == Max(0, Min(|ds|, |ss|) - current)
    ensures |ss| >= |ds| ==> |CrsAppends(ds, ss, current)| == Max(0, |ds| - current)
    ensures forall k :: 0 <= k < |CrsAppends(ds, ss, current)| ==>
      current + k < |ds| && current + k < |ss| &&
      CrsAppends(ds, ss, current)[k] == AppendStage(ds[current + k], ss[current + k])
  {
  }

  /** The loop `for d, s in zip(durations[current:], steps[current:])`. */
  method AppendMissingStages(ds: seq<real>, ss: seq<int>, current: nat) returns (calls: seq<ProjectCall>)
    ensures calls == CrsAppends(ds, ss, current)
  {
    var a := Drop(ds, current);
    var b := Drop(ss, current);
    calls := [];
    var i := 0;
    while i < |a| && i < |b|
      invariant 0 <= i <= Min(|a|, |b|)
      invariant calls == ZipAppends(a[..i], b[..i])
    {
      calls := calls + [AppendStage(a[i], b[i])];
      i := i + 1;
    }
    assert a[..i] == a || b[..i] == b;
  }

  /** `_prepare_crs_stages`: the appends it makes, given the decoded project
      file. A missing list raises ValueError in the model and returns
      without any call in the core. */
  function CrsPlan(pipeline: Pipeline, inp: Inputs, data: Json): Result<seq<ProjectCall>>
  {
    if !(Truthy(inp.stageDurations) && Truthy(inp.stepCounts)) then
      if pipeline == ModelPipeline then Err(ValueError) else Ok([])
    else
      var stages :- Get(data, "stages", JObj([]));
      var current :- PyLen(stages);
      var ds, ss := inp.stageDurations.value, inp.stepCounts.value;
      if |ds| > current then Ok(CrsAppends(ds, ss, current)) else Ok([])
  }

  /** Without both lists nothing is appended: the model raises, the core
      returns quietly. */
  lemma CrsPlanGuard(pipeline: Pipeline, inp: Inputs, data: Json)
    requires !Truthy(inp.stageDurations) || !Truthy(inp.stepCounts)
    ensures pipeline == ModelPipeline ==> CrsPlan(pipeline, inp, data) == Err(ValueError)
    ensures pipeline == CorePipeline ==> CrsPlan(pipeline, inp, data) == Ok([])
  {
  }

  /** With both lists and a file whose stages are a dictionary of `current`
      entries, the plan appends max(0, min(|durations|, |steps|) − current)
      stages, taking durations and steps from index `current` on, and none
      when the file already has enough; both pipelines agree. */
  lemma CrsPlanAppends(pipeline: Pipeline, inp: Inputs, data: Json)
    requires Truthy(inp.stageDurations) && Truthy(inp.stepCounts)
    requires data.JObj? && Get(data, "stages", JObj([])).value.JObj?
    ensures var current := |Get(data, "stages", JObj([])).value.members|;
      var ds, ss := inp.stageDurations.value, inp.stepCounts.value;
      var r := CrsPlan(pipeline, inp, data);
      r.Ok? && r == CrsPlan(ModelPipeline, inp, data) &&
      |r.value| == (if |ds| > current then Max(0, Min(|ds|, |ss|) - current) else 0) &&
      forall k :: 0 <= k < |r.value| ==>
        current + k < |ds| && current + k < |ss| && r.value[k] == AppendStage(ds[current + k], ss[current + k])
  {
    var current := |Get(data, "stages", JObj([])).value.members|;
    CrsAppendsCount(inp.stageDurations.value, inp.stepCounts.value, current);
  }

  /** The staged calls: the timings with the cumulative end times from 0.0,
      then the table numbers when there is more than one stage. */
  function StagedCalls(ends: seq<real>, ns: seq<int>): seq<ProjectCall>
  {
    [UpdateStageTimings(ends, PerStage(ns), 0.0)] + (if |ends| > 1 then [UpdateTopDisplacementTableNumbers] else [])
  }

  /** The timing calls of `_set_project_parameters`, given whether the file
      has stages; everything that raises here does so before any call. */
  function TimingCalls(pipeline: Pipeline, inp: Inputs, staged: bool): Result<seq<ProjectCall>>
  {
    if staged then
      if Truthy(inp.stageDurations) && inp.numSteps.PerStage? then
        var ds, ns := inp.stageDurations.value, inp.numSteps.ns;
        if pipeline == ModelPipeline && |ds| != |ns| then Err(ValueError)
        else Ok(StagedCalls(PrefixSums(ds), ns))
      else if pipeline == CorePipeline then Ok([UpdateStageTimings([inp.endTime], inp.numSteps, 0.0)])
      else Ok([])
    else
      var ts :- FirstTimestep(inp.numSteps, inp.stageDurations, inp.endTime);
      Ok([UpdateProperty("time_step", ts), UpdateProperty("end_time", inp.endTime)])
  }

  /** `_set_project_parameters`: the timing calls, then the initial stress
      field. */
  function ProjectPlan(pipeline: Pipeline, inp: Inputs, data: Json): Result<seq<ProjectCall>>
  {
    var staged :- Contains(data, "stages");
    var timing :- TimingCalls(pipeline, inp, staged);
    Ok(timing + [StressCall(inp.initialEffectiveCellPressure)])
  }

  /** Whatever the schema, a plan that goes through ends with the initial
      stress [−p, −p, −p, 0]. */
  lemma ProjectPlanStress(pipeline: Pipeline, inp: Inputs, data: Json)
    requires ProjectPlan(pipeline, inp, data).Ok?
    ensures var calls := ProjectPlan(pipeline, inp, data).value;
      |calls| >= 1 &&
      calls[|calls| - 1] == UpdateNestedValue(STRESS_MODULE, "value",
        [-inp.initialEffectiveCellPressure, -inp.initialEffectiveCellPressure, -inp.initialEffectiveCellPressure, 0.0])
  {
    StressVectorShape(inp.initialEffectiveCellPressure);
  }

  /** In the model, durations and step counts of different lengths raise
      ValueError before any edit; the core makes no such check. */
  lemma ProjectPlanMismatch(pipeline: Pipeline, inp: Inputs, data: Json)
    requires data.JObj? && "stages" in Keys(data.members)
    requires Truthy(inp.stageDurations) && inp.numSteps.PerStage? && |inp.stageDurations.value| != |inp.numSteps.ns|
    ensures pipeline == ModelPipeline <==> ProjectPlan(pipeline, inp, data) == Err(ValueError)
    ensures pipeline == CorePipeline ==> ProjectPlan(pipeline, inp, data).Ok?
  {
  }

  /** The staged schema with durations and a step list: the timings get the
      cumulative end times of the durations, starting at 0.0, and the table
      numbers are rewritten exactly when there is more than one stage. */
  lemma ProjectPlanStaged(pipeline: Pipeline, inp: Inputs, data: Json)
    requires data.JObj? && "stages" in Keys(data.members)
    requires Truthy(inp.stageDurations) && inp.numSteps.PerStage?
    requires pipeline == CorePipeline || |inp.stageDurations.value| == |inp.numSteps.ns|
    ensures var ds := inp.stageDurations.value;
      var r := ProjectPlan(pipeline, inp, data);
      r.Ok? && r.value[0] == UpdateStageTimings(PrefixSums(ds), inp.numSteps, 0.0) &&
      (UpdateTopDisplacementTableNumbers in r.value <==> |ds| > 1) &&
      |r.value| == (if |ds| > 1 then 3 else 2)
  {
    var r := ProjectPlan(pipeline, inp, data).value;
    var ds := inp.stageDurations.value;
    assert r == StagedCalls(PrefixSums(ds), inp.numSteps.ns) + [StressCall(inp.initialEffectiveCellPressure)];
    if |ds| > 1 {
      assert r[1] == UpdateTopDisplacementTableNumbers;
    }
  }

  /** The staged schema without durations or without a step list: the core
      times the stages with the single end time, the model leaves the
      timings alone. */
  lemma ProjectPlanSingleEndTime(pipeline: Pipeline, inp: Inputs, data: Json)
    requires data.JObj? && "stages" in Keys(data.members)
    requires !(Truthy(inp.stageDurations) && inp.numSteps.PerStage?)
    ensures pipeline == CorePipeline ==>
      ProjectPlan(pipeline, inp, data) ==
        Ok([UpdateStageTimings([inp.endTime], inp.numSteps, 0.0), StressCall(inp.initialEffectiveCellPressure)])
    ensures pipeline == ModelPipeline ==> ProjectPlan(pipeline, inp, data) == Ok([StressCall(inp.initialEffectiveCellPressure)])
  {
    var stress := StressCall(inp.initialEffectiveCellPressure);
    if pipeline == CorePipeline {
      assert [UpdateStageTimings([inp.endTime], inp.numSteps, 0.0)] + [stress] ==
        [UpdateStageTimings([inp.endTime], inp.numSteps, 0.0), stress];
    } else {
      assert [] + [stress] == [stress];
    }
  }

  /** The flat schema: the time step (durations[0] / num_steps[0] or
      end_time / num_steps) and the end time are patched as properties; a
      time step that raises stops the helper before any edit. */
  lemma ProjectPlanFlat(pipeline: Pipeline, inp: Inputs, data: Json)
    requires data.JObj? && "stages" !in Keys(data.members)
    ensures var f := FirstTimestep(inp.numSteps, inp.stageDurations, inp.endTime);
      var r := ProjectPlan(pipeline, inp, data);
      (r.Ok? <==> f.Ok?) &&
      (r.Err? ==> r.error == f.error) &&
      (r.Ok? ==> r.value == [UpdateProperty("time_step", f.value), UpdateProperty("end_time", inp.endTime),
                             StressCall(inp.initialEffectiveCellPressure)])
  {
  }

  class RunSimulation {
    const pipeline: Pipeline
    const inputs: Inputs
    const tmpDir: string
    var materialJson: Option<string>
    var projectJson: Option<string>
    var mdpaPath: Option<string>

    /** The test type is lower-cased; the working directory is the one
        `tempfile.mkdtemp` handed out. */
    constructor (pipeline: Pipeline, inputs: Inputs, tmpDir: string)
      ensures this.pipeline == pipeline && this.tmpDir == tmpDir
      ensures this.inputs == inputs.(testType := Lower(inputs.testType))
      ensures materialJson.None? && projectJson.None? && mdpaPath.None?
    {
      this.pipeline := pipeline;
      this.inputs := inputs.(testType := Lower(inputs.testType));
      this.tmpDir := tmpDir;
      materialJson := None;
      projectJson := None;
      mdpaPath := None;
    }

    /** `_copy_simulation_files`: the template directory is the first
        candidate that exists; the required files it holds are copied; the
        project file is the orchestrator file if copied, else the plain
        one, and with neither FileNotFoundError is raised before any path is
        set; the material and mesh paths are then set, and a missing mesh
        raises FileNotFoundError after that. */
    method CopySimulationFiles(candidates: seq<string>, existing: set<string>) returns (r: Outcome)
      modifies this
      ensures match TemplateDir(candidates, existing)
        case Err(e) => r == Fail(e) && projectJson == old(projectJson) && materialJson == old(materialJson) && mdpaPath == old(mdpaPath)
        case Ok(src) =>
          var copied := Copied(src, tmpDir, existing, REQUIRED_FILES);
          if SelectProject(copied).None? then
            r == Fail(FileNotFoundError) && projectJson == old(projectJson) && materialJson == old(materialJson) && mdpaPath == old(mdpaPath)
          else
            projectJson == SelectProject(copied) &&
            materialJson == GetCopy(copied, MATERIAL_JSON) &&
            mdpaPath == GetCopy(copied, MESH_MDPA) &&
            (r == Pass <==> mdpaPath.Some?) && (r.Fail? ==> r.error == FileNotFoundError)
    {
      var src := FindTemplateDir(candidates, existing);
      if src.Err? {
        return Fail(src.error);
      }
      var copied := CopyFiles(src.value, tmpDir, existing);
      if ORCHESTRATOR_JSON in copied {
        projectJson := Some(copied[ORCHESTRATOR_JSON]);
      } else if PROJECT_JSON in copied {
        projectJson := Some(copied[PROJECT_JSON]);
      } else {
        return Fail(FileNotFoundError);
      }
      materialJson := GetCopy(copied, MATERIAL_JSON);
      mdpaPath := GetCopy(copied, MESH_MDPA);
      if mdpaPath.None? {
        return Fail(FileNotFoundError);
      }
      r := Pass;
    }

    /** `_prepare_crs_stages` on the decoded project file. */
    method PrepareCrsStages(data: Json) returns (r: Result<seq<ProjectCall>>)
      ensures r == CrsPlan(pipeline, inputs, data)
    {
      if !(Truthy(inputs.stageDurations) && Truthy(inputs.stepCounts)) {
        if pipeline == ModelPipeline {
          return Err(ValueError);
        }
        return Ok([]);
      }
      var stages := Get(data, "stages", JObj([]));
      if stages.Err? {
        return Err(stages.error);
      }
      var current := PyLen(stages.value);
      if current.Err? {
        return Err(current.error);
      }
      var ds, ss := inputs.stageDurations.value, inputs.stepCounts.value;
      if |ds| > current.value {
        var calls := AppendMissingStages(ds, ss, current.value);
        return Ok(calls);
      }
      r := Ok([]);
    }

    /** `_set_project_parameters` on the decoded project file. */
    method SetProjectParameters(data: Json) returns (r: Result<seq<ProjectCall>>)
      ensures r == ProjectPlan(pipeline, inputs, data)
    {
      var staged := Contains(data, "stages");
      if staged.Err? {
        return Err(staged.error);
      }
      var timing: seq<ProjectCall>;
      if staged.value {
        if Truthy(inputs.stageDurations) && inputs.numSteps.PerStage? {
          var ds, ns := inputs.stageDurations.value, inputs.numSteps.ns;
          if pipeline == ModelPipeline && |ds| != |ns| {
            return Err(ValueError);
          }
          var ends := CumulativeEndTimes(ds);
          timing := [UpdateStageTimings(ends, PerStage(ns), 0.0)];
          if |ends| > 1 {
            timing := timing + [UpdateTopDisplacementTableNumbers];
          } else {
            assert timing + [] == timing;
          }
          assert timing == StagedCalls(PrefixSums(ds), ns);
        } else if pipeline == CorePipeline {
          timing := [UpdateStageTimings([inputs.endTime], inputs.numSteps, 0.0)];
        } else {
          timing := [];
        }
      } else {
        var ts := FirstTimestep(inputs.numSteps, inputs.stageDurations, inputs.endTime);
        if ts.Err? {
          return Err(ts.error);
        }
        timing := [UpdateProperty("time_step", ts.value), UpdateProperty("end_time", inputs.endTime)];
      }
      r := Ok(timing + [StressCall(inputs.initialEffectiveCellPressure)]);
    }
  }
}
