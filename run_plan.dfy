/** What a simulation run asks of its editors, shared by the model's and the
    core's `RunSimulation` classes and by the legacy `run_simulation`
    functions: the run inputs, the editor calls a run issues (in order), the
    time-step arithmetic, the cumulative stage end times, the constitutive
    law, the mesh edits, the output file names and the choice of template
    files. The editors themselves are modelled in their own modules; here a
    helper's effect is the list of calls it makes. */
module RunPlan {
  import opened Common
  import opened Json
  import ProjectParameters

  const TRIAXIAL: string := "triaxial"
  const DIRECT_SHEAR: string := "direct_shear"
  const CRS: string := "crs"

  /** `num_steps: int | List[int]`. */
  datatype Steps = Single(n: int) | PerStage(ns: seq<int>)

  /** Python truthiness of an optional list or string: present and non-empty. */
  predicate Truthy<T>(xs: Option<seq<T>>)
  {
    xs.Some? && xs.value != []
  }

  /** The keyword arguments of a run. `udsmNumber` is the model's
      `udsm_number` and the core's `index`; both end up as UDSM_NUMBER. */
  datatype Inputs = Inputs(
    testType: string,
    dllPath: Option<string>,
    udsmNumber: Option<int>,
    materialParameters: seq<real>,
    numSteps: Steps,
    endTime: real,
    maximumStrain: real,
    initialEffectiveCellPressure: real,
    cohesionPhiIndices: Option<seq<int>>,
    drainage: Option<string>,
    stageDurations: Option<seq<real>>,
    stepCounts: Option<seq<int>>,
    strainIncs: Option<seq<real>>)

  // ------------------------------------------------------------ test type

  function LowerChar(c: char): char
  {
    if 'A' <= c <= 'Z' then (c as int + 32) as char else c
  }

  /** `str.lower()` on ASCII letters. */
  function Lower(s: string): string
  {
    seq(|s|, k requires 0 <= k < |s| => LowerChar(s[k]))
  }

  /** Lower-casing leaves no ASCII capital behind and is idempotent, so a
      test type given in any case compares equal to its lower-case name. */
  lemma LowerIsLower(s: string)
    ensures forall k :: 0 <= k < |Lower(s)| ==> !('A' <= Lower(s)[k] <= 'Z')
    ensures Lower(Lower(s)) == Lower(s)
  {
  }

  lemma LowerTestTypes()
    ensures Lower("Triaxial") == TRIAXIAL && Lower("DIRECT_SHEAR") == DIRECT_SHEAR && Lower("CRS") == CRS
  {
  }

  // ------------------------------------------------------ time arithmetic

  /** Python's true division `x / n` of a float by an int. */
  function Div(x: real, n: int): (r: Result<real>)
    ensures r.Ok? <==> n != 0
    ensures r.Ok? ==> r.value * (n as real) == x
    ensures r.Err? ==> r.error == ZeroDivisionError
  {
    if n == 0 then Err(ZeroDivisionError) else Ok(x / n as real)
  }

  /** `stage_durations[0] / num_steps[0]` when `num_steps` is a list and the
      durations are given, `end_time / num_steps` otherwise; dividing by a
      list raises TypeError. */
  function FirstTimestep(numSteps: Steps, durations: Option<seq<real>>, endTime: real): (r: Result<real>)
    ensures numSteps.PerStage? && Truthy(durations) ==>
      (r.Ok? <==> numSteps.ns != [] && numSteps.ns[0] != 0) &&
      (r.Ok? ==> r.value * (numSteps.ns[0] as real) == durations.value[0])
    ensures numSteps.PerStage? && !Truthy(durations) ==> r == Err(TypeError)
    ensures numSteps.Single? ==>
      (r.Ok? <==> numSteps.n != 0) && (r.Ok? ==> r.value * (numSteps.n as real) == endTime)
  {
    match numSteps
    case PerStage(ns) =>
      if Truthy(durations) then
        var n :- PyIndex(ns, 0);
        Div(durations.value[0], n)
      else Err(TypeError)
    case Single(n) => Div(endTime, n)
  }

  /** The cumulative end times: entry k is the sum of the first k + 1
      durations. */
  function PrefixSums(ds: seq<real>): (ends: seq<real>)
    ensures |ends| == |ds|
    ensures forall k :: 0 <= k < |ds| ==> ends[k] == Sum(ds[..k + 1])
  {
    if ds == [] then []
    else
      var init := ds[..|ds| - 1];
      assert forall k :: 0 <= k < |init| ==> PrefixSums(init)[k] == Sum(ds[..k + 1]) by {
        forall k | 0 <= k < |init|
          ensures PrefixSums(init)[k] == Sum(ds[..k + 1])
        {
          assert init[..k + 1] == ds[..k + 1];
        }
      }
      assert ds[..|ds|] == ds;
      PrefixSums(init) + [Sum(ds)]
  }

  /** The loop `total += d; cumulative_end_times.append(total)`. */
  method CumulativeEndTimes(ds: seq<real>) returns (ends: seq<real>)
    ensures ends == PrefixSums(ds)
  {
    ends := [];
    var total := 0.0;
    var i := 0;
    while i < |ds|
      invariant 0 <= i <= |ds|
      invariant total == Sum(ds[..i])
      invariant ends == PrefixSums(ds[..i])
    {
      assert ds[..i + 1][..i] == ds[..i];
      total := total + ds[i];
      ends := ends + [total];
      i := i + 1;
    }
    assert ds[..i] == ds;
  }

  /** With the end times chained from 0.0, stage k starts at the sum of the
      earlier durations and lasts exactly its own duration. */
  lemma PrefixSumsChained(ds: seq<real>, k: nat)
    requires k < |ds|
    ensures ProjectParameters.StartOf(k, 0.0, PrefixSums(ds)) == Sum(ds[..k])
    ensures PrefixSums(ds)[k] == ProjectParameters.StartOf(k, 0.0, PrefixSums(ds)) + ds[k]
  {
    assert ds[..k + 1][..k] == ds[..k];
  }

  /** The last end time is the total duration. */
  lemma PrefixSumsTotal(ds: seq<real>)
    requires ds != []
    ensures PrefixSums(ds)[|ds| - 1] == Sum(ds)
  {
    assert ds[..|ds|] == ds;
  }

  /** So the stage timing gives stage k the time step duration_k / steps_k. */
  lemma StagedTimeStep(ds: seq<real>, k: nat, steps: int)
    requires k < |ds| && steps != 0
    ensures ProjectParameters.TimeStep(ProjectParameters.StartOf(k, 0.0, PrefixSums(ds)), PrefixSums(ds)[k], steps) ==
      ProjectParameters.Per(ds[k], steps)
  {
    PrefixSumsChained(ds, k);
    TimeStepOfDuration(ProjectParameters.StartOf(k, 0.0, PrefixSums(ds)), PrefixSums(ds)[k], ds[k], steps);
  }

  lemma TimeStepOfDuration(start: real, end: real, d: real, steps: int)
    requires steps != 0 && end == start + d
    ensures ProjectParameters.TimeStep(start, end, steps) == ProjectParameters.Per(d, steps)
  {
    assert end - start == d;
  }

  // --------------------------------------------------------- editor calls

  /** A call on a project-parameter editor. */
  datatype ProjectCall =
    | UpdateStageTimings(endTimes: seq<real>, stepCounts: Steps, startTime: real)
    | UpdateTopDisplacementTableNumbers
    | UpdateProperty(name: string, value: real)
    | UpdateNestedValue(moduleName: string, key: string, newList: seq<real>)
    | AppendStage(duration: real, steps: int)

  /** A call on a mesh editor. `UpdateFirstTimestep` is the one-argument
      form the pipelines use, `UpdateFirstTimestepOf` the two-argument form
      of the core mesh editor that the legacy function uses. */
  datatype MdpaCall =
    | UpdateMaximumStrain(maximumStrain: real)
    | UpdateEndTime(endTime: real)
    | UpdateFirstTimestep(firstTimestep: real)
    | UpdateFirstTimestepOf(numSteps: int, endTime: real)
    | UpdateInitialEffectiveCellPressure(pressure: real)
    | UpdateMiddleMaximumStrain(maximumStrain: real)
    | InsertDisplacementTables(durations: seq<real>, strainIncs: seq<real>)
    | UpdateTopDisplacementTables(stageCount: nat)

  /** A value in a material-properties dictionary. */
  datatype PropValue = PBool(b: bool) | PReals(xs: seq<real>) | PText(s: string) | PIndex(i: Option<int>) | PReal(x: real)

  datatype Property = Property(name: string, value: PropValue)

  /** A call on a material editor. */
  datatype MaterialCall = UpdateMaterialProperties(props: seq<Property>) | SetConstitutiveLaw(law: string)

  /** The calls a helper made, and the exception that ended it, if any. */
  datatype Plan<C> = Plan(calls: seq<C>, failure: Option<Error>)

  // --------------------------------------------------- initial stress field

  const STRESS_MODULE: string := "apply_initial_uniform_stress_field"

  /** `[-p] * 3 + [0.0]`. */
  function StressVector(p: real): seq<real>
  {
    [-p] + [-p] + [-p] + [0.0]
  }

  /** The call that sets the initial stress field of the load processes. */
  function StressCall(p: real): ProjectCall
  {
    UpdateNestedValue(STRESS_MODULE, "value", StressVector(p))
  }

  /** The initial stress is isotropic compression of magnitude p with no
      shear component. */
  lemma StressVectorShape(p: real)
    ensures StressVector(p) == [-p, -p, -p, 0.0]
    ensures var v := StressVector(p); |v| == 4 && v[0] == v[1] == v[2] == -p && v[3] == 0.0
  {
  }

  // ------------------------------------------------- constitutive law

  const UDSM_LAW: string := "SmallStrainUDSM2DPlaneStrainLaw"
  const LINEAR_ELASTIC_LAW: string := "GeoLinearElasticPlaneStrain2DLaw"

  /** `_set_material_constitutive_law` / `set_material_constitutive_law`:
      with a DLL, the UDSM properties and the UDSM law; without, Young's
      modulus and Poisson's ratio from the first two parameters and the
      linear-elastic law. */
  function MaterialLaw(dllPath: Option<string>, udsmNumber: Option<int>, parameters: seq<real>): Result<seq<MaterialCall>>
  {
    if Truthy(dllPath) then
      Ok([UpdateMaterialProperties([
            Property("IS_FORTRAN_UDSM", PBool(true)),
            Property("UMAT_PARAMETERS", PReals(parameters)),
            Property("UDSM_NAME", PText(dllPath.value)),
            Property("UDSM_NUMBER", PIndex(udsmNumber))]),
          SetConstitutiveLaw(UDSM_LAW)])
    else
      var young :- PyIndex(parameters, 0);
      var poisson :- PyIndex(parameters, 1);
      Ok([UpdateMaterialProperties([Property("YOUNG_MODULUS", PReal(young)), Property("POISSON_RATIO", PReal(poisson))]),
          SetConstitutiveLaw(LINEAR_ELASTIC_LAW)])
  }

  /** The law depends only on whether a DLL is given; without one, the
      parameter vector needs two entries, which become E and ν. */
  lemma MaterialLawChoice(dllPath: Option<string>, udsmNumber: Option<int>, parameters: seq<real>)
    ensures Truthy(dllPath) ==> MaterialLaw(dllPath, udsmNumber, parameters).Ok?
    ensures !Truthy(dllPath) ==> (MaterialLaw(dllPath, udsmNumber, parameters).Ok? <==> |parameters| >= 2)
    ensures !Truthy(dllPath) && |parameters| < 2 ==> MaterialLaw(dllPath, udsmNumber, parameters) == Err(IndexError)
    ensures MaterialLaw(dllPath, udsmNumber, parameters).Ok? ==>
      var calls := MaterialLaw(dllPath, udsmNumber, parameters).value;
      |calls| == 2 && calls[1] == SetConstitutiveLaw(if Truthy(dllPath) then UDSM_LAW else LINEAR_ELASTIC_LAW)
    ensures !Truthy(dllPath) && |parameters| >= 2 ==>
      MaterialLaw(dllPath, udsmNumber, parameters).value[0] ==
        UpdateMaterialProperties([Property("YOUNG_MODULUS", PReal(parameters[0])), Property("POISSON_RATIO", PReal(parameters[1]))])
    ensures Truthy(dllPath) ==>
      var props := MaterialLaw(dllPath, udsmNumber, parameters).value[0].props;
      |props| == 4 && props[1] == Property("UMAT_PARAMETERS", PReals(parameters)) &&
      props[2] == Property("UDSM_NAME", PText(dllPath.value)) && props[3] == Property("UDSM_NUMBER", PIndex(udsmNumber))
  {
  }

  // ------------------------------------------------------------ mesh edits

  /** `_set_mdpa` of both pipelines: maximum strain and end time first, then
      the first time step (whose division may raise), then the edits of the
      test type. */
  function MdpaPlan(inp: Inputs): Plan<MdpaCall>
  {
    var common := [UpdateMaximumStrain(inp.maximumStrain), UpdateEndTime(inp.endTime)];
    match FirstTimestep(inp.numSteps, inp.stageDurations, inp.endTime)
    case Err(e) => Plan(common, Some(e))
    case Ok(first) =>
      Plan(common + [UpdateFirstTimestep(first)] + TypeEdits(inp), None)
  }

  /** Cell pressure for triaxial, middle strain for direct shear,
      displacement tables for CRS when strain increments and durations are
      given. */
  function TypeEdits(inp: Inputs): seq<MdpaCall>
  {
    (if inp.testType == TRIAXIAL then [UpdateInitialEffectiveCellPressure(inp.initialEffectiveCellPressure)] else []) +
    (if inp.testType == DIRECT_SHEAR then [UpdateMiddleMaximumStrain(inp.maximumStrain)] else []) +
    (if inp.testType == CRS && Truthy(inp.strainIncs) && Truthy(inp.stageDurations)
     then [InsertDisplacementTables(inp.stageDurations.value, inp.strainIncs.value),
           UpdateTopDisplacementTables(|inp.stageDurations.value|)]
     else [])
  }

  /** Which mesh edits a run makes: the three common ones always (unless the
      time step raises, which stops after two), the cell pressure only for
      triaxial, the middle strain only for direct shear and the tables only
      for CRS with both lists given, for as many stages as durations. */
  lemma {:induction false} MdpaPlanEdits(inp: Inputs)
    ensures var p := MdpaPlan(inp);
      |p.calls| >= 2 && p.calls[0] == UpdateMaximumStrain(inp.maximumStrain) && p.calls[1] == UpdateEndTime(inp.endTime) &&
      (p.failure.Some? <==> FirstTimestep(inp.numSteps, inp.stageDurations, inp.endTime).Err?) &&
      (p.failure.Some? ==> |p.calls| == 2) &&
      (p.failure.None? ==> |p.calls| >= 3 && p.calls[2] == UpdateFirstTimestep(FirstTimestep(inp.numSteps, inp.stageDurations, inp.endTime).value))
    ensures MdpaPlan(inp).failure.None? ==>
      ((exists c :: c in MdpaPlan(inp).calls && c.UpdateInitialEffectiveCellPressure?) <==> inp.testType == TRIAXIAL)
    ensures MdpaPlan(inp).failure.None? ==>
      ((exists c :: c in MdpaPlan(inp).calls && c.UpdateMiddleMaximumStrain?) <==> inp.testType == DIRECT_SHEAR)
    ensures MdpaPlan(inp).failure.None? ==>
      ((exists c :: c in MdpaPlan(inp).calls && c.InsertDisplacementTables?) <==>
         inp.testType == CRS && Truthy(inp.strainIncs) && Truthy(inp.stageDurations))
    ensures MdpaPlan(inp).failure.None? && inp.testType == CRS && Truthy(inp.strainIncs) && Truthy(inp.stageDurations) ==>
      UpdateTopDisplacementTables(|inp.stageDurations.value|) in MdpaPlan(inp).calls
  {
    var f := FirstTimestep(inp.numSteps, inp.stageDurations, inp.endTime);
    if f.Ok? {
      var calls := MdpaPlan(inp).calls;
      var common := [UpdateMaximumStrain(inp.maximumStrain), UpdateEndTime(inp.endTime), UpdateFirstTimestep(f.value)];
      assert calls == common + TypeEdits(inp);
      forall c | c in calls
        ensures c.UpdateInitialEffectiveCellPressure? ==> inp.testType == TRIAXIAL
        ensures c.UpdateMiddleMaximumStrain? ==> inp.testType == DIRECT_SHEAR
        ensures c.InsertDisplacementTables? ==> inp.testType == CRS && Truthy(inp.strainIncs) && Truthy(inp.stageDurations)
      {
        if c !in common {
          assert c in TypeEdits(inp);
        }
      }
      if inp.testType == TRIAXIAL {
        assert calls[3] == UpdateInitialEffectiveCellPressure(inp.initialEffectiveCellPressure);
      }
      if inp.testType == DIRECT_SHEAR {
        assert calls[3] == UpdateMiddleMaximumStrain(inp.maximumStrain);
      }
      if inp.testType == CRS && Truthy(inp.strainIncs) && Truthy(inp.stageDurations) {
        assert calls[3] == InsertDisplacementTables(inp.stageDurations.value, inp.strainIncs.value);
        assert calls[4] == UpdateTopDisplacementTables(|inp.stageDurations.value|);
      }
    }
  }

  // ------------------------------------------------------ output file names

  /** `a / b` on paths. */
  function Join(dir: string, name: string): string
  {
    dir + "/" + name
  }

  /** `len(x)`: members of a dictionary, items of a list, characters of a
      string; anything else has no length. */
  function PyLen(x: Json): (r: Result<nat>)
    ensures x.JObj? ==> r == Ok(|x.members|)
    ensures x.JArr? ==> r == Ok(|x.items|)
    ensures (x.JNull? || x.JBool? || x.JNum?) ==> r == Err(TypeError)
  {
    match x
    case JObj(ms) => Ok(|ms|)
    case JArr(items) => Ok(|items|)
    case JStr(s) => Ok(|s|)
    case _ => Err(TypeError)
  }

  /** The result file of stage `k` (from 1). */
  function StageOutputFile(tmpDir: string, k: nat): string
  {
    Join(Join(tmpDir, "gid_output"), "output_stage" + NatToString(k) + ".post.res")
  }

  /** `_output_file_paths` on the decoded project file: one result file per
      stage, numbered from 1, when the file has stages; the single
      `output.post.res` otherwise. */
  function OutputFilePaths(tmpDir: string, data: Json): Result<seq<string>>
  {
    var staged :- Contains(data, "stages");
    if staged then
      var stages :- Index(data, "stages");
      var n :- PyLen(stages);
      Ok(seq(n, i requires 0 <= i < n => StageOutputFile(tmpDir, i + 1)))
    else Ok([Join(Join(tmpDir, "gid_output"), "output.post.res")])
  }

  /** A staged file gives one result file per stage, in stage order, and
      stage k's file is the output name the parameter editor gives stage k
      (`gid_output/output_stage{k}`) with `.post.res`; an unstaged object gives
      exactly one file. */
  lemma OutputFileNames(tmpDir: string, data: Json)
    requires data.JObj?
    ensures "stages" !in Keys(data.members) ==>
      OutputFilePaths(tmpDir, data) == Ok([tmpDir + "/gid_output/output.post.res"])
    ensures "stages" in Keys(data.members) ==>
      var stages := Lookup(data.members, "stages").value;
      var r := OutputFilePaths(tmpDir, data);
      (r.Ok? <==> !(stages.JNull? || stages.JBool? || stages.JNum?)) &&
      (stages.JObj? ==> r.Ok? && |r.value| == |stages.members|) &&
      (r.Ok? ==> forall i :: 0 <= i < |r.value| ==>
         r.value[i] == Join(tmpDir, ProjectParameters.OutputName(i + 1) + ".post.res"))
  {
    if "stages" in Keys(data.members) {
      StagedOutputFiles(tmpDir, data);
      if OutputFilePaths(tmpDir, data).Ok? {
        StagedOutputNames(tmpDir, data);
      }
    } else {
      FlatOutputFile(tmpDir, data);
    }
  }

  lemma FlatOutputFile(tmpDir: string, data: Json)
    requires data.JObj? && "stages" !in Keys(data.members)
    ensures OutputFilePaths(tmpDir, data) == Ok([tmpDir + "/gid_output/output.post.res"])
  {
    assert Join(Join(tmpDir, "gid_output"), "output.post.res") == tmpDir + "/gid_output/output.post.res";
  }

  lemma StagedOutputFiles(tmpDir: string, data: Json)
    requires data.JObj? && "stages" in Keys(data.members)
    ensures var stages := Lookup(data.members, "stages").value;
      var r := OutputFilePaths(tmpDir, data);
      (r.Ok? <==> !(stages.JNull? || stages.JBool? || stages.JNum?)) &&
      (stages.JObj? ==> r.Ok? && |r.value| == |stages.members|)
  {
  }

  lemma StagedOutputNames(tmpDir: string, data: Json)
    requires data.JObj? && "stages" in Keys(data.members)
    requires OutputFilePaths(tmpDir, data).Ok?
    ensures var r := OutputFilePaths(tmpDir, data).value;
      forall i :: 0 <= i < |r| ==> r[i] == Join(tmpDir, ProjectParameters.OutputName(i + 1) + ".post.res")
  {
    var r := OutputFilePaths(tmpDir, data).value;
    forall i | 0 <= i < |r|
      ensures r[i] == Join(tmpDir, ProjectParameters.OutputName(i + 1) + ".post.res")
    {
      assert r[i] == StageOutputFile(tmpDir, i + 1);
      StageFileIsOutputName(tmpDir, i + 1);
    }
  }

  lemma StageFileIsOutputName(tmpDir: string, k: nat)
    ensures StageOutputFile(tmpDir, k) == Join(tmpDir, ProjectParameters.OutputName(k) + ".post.res")
  {
    assert tmpDir + "/" + "gid_output" + "/" + ("output_stage" + NatToString(k) + ".post.res")
        == tmpDir + "/" + ("gid_output/output_stage" + NatToString(k) + ".post.res");
  }

  // ------------------------------------------------------ template files

  const REQUIRED_FILES: seq<string> :=
    ["MaterialParameters.json", "mesh.mdpa", "ProjectParameters.json", "ProjectParametersOrchestrator.json"]
  const ORCHESTRATOR_JSON: string := "ProjectParametersOrchestrator.json"
  const PROJECT_JSON: string := "ProjectParameters.json"
  const MATERIAL_JSON: string := "MaterialParameters.json"
  const MESH_MDPA: string := "mesh.mdpa"

  /** `_find_template_dir`'s answer: the first candidate that exists. */
  function TemplateDir(candidates: seq<string>, existing: set<string>): (r: Result<string>)
  {
    if candidates == [] then Err(FileNotFoundError)
    else if candidates[0] in existing then Ok(candidates[0])
    else TemplateDir(candidates[1..], existing)
  }

  /** The directory found exists and no earlier candidate does; with none
      existing the search raises FileNotFoundError. */
  lemma {:induction false} TemplateDirFirst(candidates: seq<string>, existing: set<string>)
    ensures TemplateDir(candidates, existing).Err? <==> forall c :: c in candidates ==> c !in existing
    ensures TemplateDir(candidates, existing).Err? ==> TemplateDir(candidates, existing).error == FileNotFoundError
    ensures TemplateDir(candidates, existing).Ok? ==>
      exists i :: 0 <= i < |candidates| && candidates[i] == TemplateDir(candidates, existing).value &&
        candidates[i] in existing && forall j :: 0 <= j < i ==> candidates[j] !in existing
  {
    if candidates != [] && candidates[0] !in existing {
      TemplateDirFirst(candidates[1..], existing);
      if TemplateDir(candidates, existing).Ok? {
        var i :| 0 <= i < |candidates[1..]| && candidates[1..][i] == TemplateDir(candidates, existing).value &&
          candidates[1..][i] in existing && forall j :: 0 <= j < i ==> candidates[1..][j] !in existing;
        assert candidates[i + 1] == candidates[1..][i];
        forall j | 0 <= j < i + 1
          ensures candidates[j] !in existing
        {
          if j > 0 {
            assert candidates[j] == candidates[1..][j - 1];
          }
        }
      } else {
        forall c | c in candidates
          ensures c !in existing
        {
          if c != candidates[0] {
            assert c in candidates[1..];
          }
        }
      }
    } else if candidates != [] {
      assert candidates[0] == TemplateDir(candidates, existing).value;
    }
  }

  /** The search loop of `_find_template_dir`. */
  method FindTemplateDir(candidates: seq<string>, existing: set<string>) returns (r: Result<string>)
    ensures r == TemplateDir(candidates, existing)
  {
    var i := 0;
    while i < |candidates|
      invariant 0 <= i <= |candidates|
      invariant TemplateDir(candidates, existing) == TemplateDir(candidates[i..], existing)
    {
      if candidates[i] in existing {
        return Ok(candidates[i]);
      }
      assert candidates[i..][1..] == candidates[i + 1..];
      i := i + 1;
    }
    r := Err(FileNotFoundError);
  }

  /** The `copied` dictionary: every listed file present in the template
      directory, mapped to its copy in the working directory. */
  function Copied(srcDir: string, tmpDir: string, existing: set<string>, files: seq<string>): (m: map<string, string>)
    ensures forall f :: f in m <==> f in files && Join(srcDir, f) in existing
    ensures forall f :: f in m ==> m[f] == Join(tmpDir, f)
  {
    if files == [] then map[]
    else
      var m := Copied(srcDir, tmpDir, existing, files[..|files| - 1]);
      var f := files[|files| - 1];
      assert forall g :: g in files <==> g in files[..|files| - 1] || g == f;
      if Join(srcDir, f) in existing then m[f := Join(tmpDir, f)] else m
  }

  /** The copy loop over the required files. */
  method CopyFiles(srcDir: string, tmpDir: string, existing: set<string>) returns (copied: map<string, string>)
    ensures copied == Copied(srcDir, tmpDir, existing, REQUIRED_FILES)
  {
    copied := map[];
    var i := 0;
    while i < |REQUIRED_FILES|
      invariant 0 <= i <= |REQUIRED_FILES|
      invariant copied == Copied(srcDir, tmpDir, existing, REQUIRED_FILES[..i])
    {
      var filename := REQUIRED_FILES[i];
      assert REQUIRED_FILES[..i + 1][..i] == REQUIRED_FILES[..i];
      if Join(srcDir, filename) in existing {
        copied := copied[filename := Join(tmpDir, filename)];
      }
      i := i + 1;
    }
    assert REQUIRED_FILES[..i] == REQUIRED_FILES;
  }

  /** `copied.get(name)`. */
  function GetCopy(copied: map<string, string>, name: string): Option<string>
  {
    if name in copied then Some(copied[name]) else None
  }

  /** The project file: the orchestrator file when it was copied, the plain
      project file otherwise, none when neither exists. */
  function SelectProject(copied: map<string, string>): Option<string>
  {
    if ORCHESTRATOR_JSON in copied then Some(copied[ORCHESTRATOR_JSON])
    else if PROJECT_JSON in copied then Some(copied[PROJECT_JSON])
    else None
  }

  /** The orchestrator file wins whenever the template has it; the plain
      project file is taken only without it; with neither there is none. */
  lemma SelectProjectPreference(srcDir: string, tmpDir: string, existing: set<string>)
    ensures var p := SelectProject(Copied(srcDir, tmpDir, existing, REQUIRED_FILES));
      (Join(srcDir, ORCHESTRATOR_JSON) in existing ==> p == Some(Join(tmpDir, ORCHESTRATOR_JSON))) &&
      (Join(srcDir, ORCHESTRATOR_JSON) !in existing && Join(srcDir, PROJECT_JSON) in existing ==>
         p == Some(Join(tmpDir, PROJECT_JSON))) &&
      (p.None? <==> Join(srcDir, ORCHESTRATOR_JSON) !in existing && Join(srcDir, PROJECT_JSON) !in existing)
  {
    assert ORCHESTRATOR_JSON in REQUIRED_FILES && PROJECT_JSON in REQUIRED_FILES;
  }

  /** The mesh file is found exactly when the template has `mesh.mdpa`. */
  lemma MeshCopied(srcDir: string, tmpDir: string, existing: set<string>)
    ensures GetCopy(Copied(srcDir, tmpDir, existing, REQUIRED_FILES), MESH_MDPA).Some? <==> Join(srcDir, MESH_MDPA) in existing
    ensures GetCopy(Copied(srcDir, tmpDir, existing, REQUIRED_FILES), MATERIAL_JSON).Some? <==> Join(srcDir, MATERIAL_JSON) in existing
  {
    assert MESH_MDPA in REQUIRED_FILES && MATERIAL_JSON in REQUIRED_FILES;
  }
}
