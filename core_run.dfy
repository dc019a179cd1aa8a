/** The end of the core `RunSimulation.run`: the runner's ten series, the
    principal stresses and cohesion/phi assembled into the results
    dictionary, and `_render`, which indexes that dictionary by key and calls
    the plotter method of the test type. The dictionary is a map from key to
    value, so a key that is absent is the KeyError indexing would raise. */
module CoreRun {
  import opened Common
  import opened GidOutput
  import opened Extract
  import opened Principal
  import opened CohesionPhi
  import Collector
  import opened RunPlan

  /** A value of the results dictionary: a float series, a series of
      scalar-stress items as the runner returns them, or an optional float. */
  datatype Value = Reals(xs: seq<real>) | Items(items: seq<Item>) | Scalar(x: Option<real>)

  /** The keys of the results dictionaries; `Name` gives the string each
      stands for. */
  datatype Key =
    | YyStrain | VolStrain | Sigma1 | Sigma3 | ShearXy | ShearStrainXy | MeanStress | VonMises
    | Cohesion | Phi | SigmaXx | SigmaYy | TimeSteps

  function Name(k: Key): string
  {
    match k
    case YyStrain => "yy_strain"
    case VolStrain => "vol_strain"
    case Sigma1 => "sigma1"
    case Sigma3 => "sigma3"
    case ShearXy => "shear_xy"
    case ShearStrainXy => "shear_strain_xy"
    case MeanStress => "mean_stress"
    case VonMises => "von_mises"
    case Cohesion => "cohesion"
    case Phi => "phi"
    case SigmaXx => "sigma_xx"
    case SigmaYy => "sigma_yy"
    case TimeSteps => "time_steps"
  }

  /** `results[k]` on the dictionary `run` builds, which has the same
      thirteen keys as the collectors' (Collector.Results). */
  function CoreField(res: Collector.Results, k: Key): Value
  {
    match k
    case YyStrain => Reals(res.yyStrain)
    case VolStrain => Reals(res.volStrain)
    case Sigma1 => Reals(res.sigma1)
    case Sigma3 => Reals(res.sigma3)
    case ShearXy => Reals(res.shearXy)
    case ShearStrainXy => Reals(res.shearStrainXy)
    case MeanStress => Items(res.meanStress)
    case VonMises => Items(res.vonMises)
    case Cohesion => Scalar(res.cohesion)
    case Phi => Scalar(res.phi)
    case SigmaXx => Reals(res.sigmaXx)
    case SigmaYy => Reals(res.sigmaYy)
    case TimeSteps => Reals(res.timeSteps)
  }

  /** The dictionary `run` builds from the runner's ten series, the
      principal stresses and cohesion/phi. */
  function CoreResults(out: Collector.RunnerOutput, sigma1: seq<real>, sigma3: seq<real>, c: Option<real>, phi: Option<real>)
    : Collector.Results
  {
    Collector.Results(out.yyStrain, out.volStrain, sigma1, sigma3, out.shearXy, out.shearStrainXy,
      out.meanStress, out.vonMises, c, phi, out.sigmaXx, out.sigmaYy, out.timeSteps)
  }

  /** `run` after the solver: the principal stresses of the runner's
      tensors in ascending time order and cohesion/phi from the material
      parameters, then the dictionary. An index error of the cohesion
      lookup propagates and no dictionary is built. */
  method CollectRunResults(out: Collector.RunnerOutput, parameters: seq<real>, indices: Option<seq<int>>,
                           eigh: Matrix -> (real, real, real)) returns (r: Result<Collector.Results>)
    ensures r.Ok? <==> GetCohesionPhi(parameters, indices).Ok?
    ensures r.Err? ==> r.error == GetCohesionPhi(parameters, indices).error
    ensures r.Ok? ==>
      var tensors := InKeyOrder(out.tensors, SortReals(out.tensors.order));
      var cp := GetCohesionPhi(parameters, indices).value;
      r.value == CoreResults(out, Mins(tensors, eigh), Maxs(tensors, eigh), cp.0, cp.1)
    ensures r.Ok? ==>
      var s1, s3 := r.value.sigma1, r.value.sigma3;
      |s1| == |s3| == |InKeyOrder(out.tensors, out.tensors.order)| && forall k :: 0 <= k < |s1| ==> s1[k] <= s3[k]
  {
    var sigma1, sigma3 := CalculatePrincipalStresses(out.tensors, eigh);
    var cp := GetCohesionPhi(parameters, indices);
    if cp.Err? {
      return Err(cp.error);
    }
    r := Ok(CoreResults(out, sigma1, sigma3, cp.value.0, cp.value.1));
  }

  // ------------------------------------------------------------- rendering

  datatype PlotKind = TriaxialPlot | DirectShearPlot | CrsPlot

  /** A call of the plotter method `kind` with positional arguments. */
  datatype PlotCall = PlotCall(kind: PlotKind, args: seq<Value>)

  /** The keys whose values each plotter method receives, in order. */
  function PlotKeys(kind: PlotKind): seq<Key>
  {
    match kind
    case TriaxialPlot => [YyStrain, VolStrain, Sigma1, Sigma3, MeanStress, VonMises, Cohesion, Phi]
    case DirectShearPlot => [ShearStrainXy, ShearXy, Sigma1, Sigma3, MeanStress, VonMises, Cohesion, Phi]
    case CrsPlot => [YyStrain, TimeSteps, SigmaYy, SigmaXx, MeanStress, VonMises, Sigma1, Sigma3, Cohesion, Phi]
  }

  /** `results[k]` for every key in order. */
  function Args(res: Collector.Results, keys: seq<Key>): (args: seq<Value>)
  {
    seq(|keys|, i requires 0 <= i < |keys| => CoreField(res, keys[i]))
  }

  /** The plotter method of a test type in the core dispatch. */
  function CoreKind(testType: string): Option<PlotKind>
  {
    if testType == TRIAXIAL then Some(TriaxialPlot)
    else if testType == DIRECT_SHEAR then Some(DirectShearPlot)
    else if testType == CRS then Some(CrsPlot)
    else None
  }

  /** `_render` of the core: the plotter is always present, because a
      missing one is replaced by the no-op plotter at construction. */
  function Render(testType: string, res: Collector.Results): Result<PlotCall>
  {
    match CoreKind(testType)
    case None => Err(ValueError)
    case Some(kind) => Ok(PlotCall(kind, Args(res, PlotKeys(kind))))
  }

  /** Only the three test types render; any other raises ValueError. */
  lemma RenderDispatch(testType: string, res: Collector.Results)
    ensures Render(testType, res).Ok? <==> testType == TRIAXIAL || testType == DIRECT_SHEAR || testType == CRS
    ensures Render(testType, res).Err? ==> Render(testType, res).error == ValueError
    ensures Render(testType, res).Ok? ==> Render(testType, res).value.kind == CoreKind(testType).value
  {
  }

  /** Triaxial: strains against stresses, cohesion and phi last. */
  lemma RenderTriaxial(res: Collector.Results)
    ensures Render(TRIAXIAL, res) == Ok(PlotCall(TriaxialPlot,
      [Reals(res.yyStrain), Reals(res.volStrain), Reals(res.sigma1), Reals(res.sigma3),
       Items(res.meanStress), Items(res.vonMises), Scalar(res.cohesion), Scalar(res.phi)]))
  {
    var keys := PlotKeys(TriaxialPlot);
    var want := [Reals(res.yyStrain), Reals(res.volStrain), Reals(res.sigma1), Reals(res.sigma3), Items(res.meanStress), Items(res.vonMises), Scalar(res.cohesion), Scalar(res.phi)];
    forall i | 0 <= i < |keys|
      ensures Args(res, keys)[i] == want[i]
    {
    }
    assert Args(res, keys) == want;
  }

  /** Direct shear: the shear strain first, then the shear stress. */
  lemma RenderDirectShear(res: Collector.Results)
    ensures Render(DIRECT_SHEAR, res) == Ok(PlotCall(DirectShearPlot,
      [Reals(res.shearStrainXy), Reals(res.shearXy), Reals(res.sigma1), Reals(res.sigma3),
       Items(res.meanStress), Items(res.vonMises), Scalar(res.cohesion), Scalar(res.phi)]))
  {
    var keys := PlotKeys(DirectShearPlot);
    var want := [Reals(res.shearStrainXy), Reals(res.shearXy), Reals(res.sigma1), Reals(res.sigma3), Items(res.meanStress), Items(res.vonMises), Scalar(res.cohesion), Scalar(res.phi)];
    forall i | 0 <= i < |keys|
      ensures Args(res, keys)[i] == want[i]
    {
    }
    assert Args(res, keys) == want;
  }

  /** CRS: yy strain and time steps, σyy before σxx, and the principal
      stresses after the mean and von Mises stresses. */
  lemma RenderCrs(res: Collector.Results)
    ensures Render(CRS, res) == Ok(PlotCall(CrsPlot,
      [Reals(res.yyStrain), Reals(res.timeSteps), Reals(res.sigmaYy), Reals(res.sigmaXx),
       Items(res.meanStress), Items(res.vonMises), Reals(res.sigma1), Reals(res.sigma3),
       Scalar(res.cohesion), Scalar(res.phi)]))
  {
    var keys := PlotKeys(CrsPlot);
    var want := [Reals(res.yyStrain), Reals(res.timeSteps), Reals(res.sigmaYy), Reals(res.sigmaXx), Items(res.meanStress), Items(res.vonMises), Reals(res.sigma1), Reals(res.sigma3), Scalar(res.cohesion), Scalar(res.phi)];
    forall i | 0 <= i < |keys|
      ensures Args(res, keys)[i] == want[i]
    {
    }
    assert Args(res, keys) == want;
  }
}
