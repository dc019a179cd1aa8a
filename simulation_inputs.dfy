/** The input records of a simulation and their validation: the model's
    triaxial/shear and CRS records with their strain increments, the core's
    `SimulationInputs`, and the Mohr–Coulomb index options shared by both.
    `validate` raises ValueError on the first failed check; here it returns
    Fail(ValueError). */
module SimulationInputs {
  import opened Common

  const TRIAXIAL: string := "triaxial"
  const DIRECT_SHEAR: string := "direct_shear"
  const CRS: string := "crs"
  const DRAINED: string := "drained"
  const UNDRAINED: string := "undrained"

  /** The model's valid test types: the values of its name-to-type table. */
  predicate ValidTestType(t: string)
  {
    t == TRIAXIAL || t == DIRECT_SHEAR || t == CRS
  }

  predicate ValidDrainage(d: string)
  {
    d == DRAINED || d == UNDRAINED
  }

  // ------------------------------------------------------ triaxial / shear

  /** `TriaxialAndShearSimulationInputs`. `duration` is not a field of the
      dataclass: it is the attribute `update_duration` adds to the instance
      (None until then). */
  datatype ShearInputs = ShearInputs(
    testType: string,
    maximumStrain: real,
    initialEffectiveCellPressure: real,
    numberOfSteps: int,
    durationInSeconds: real,
    drainage: string,
    duration: Option<real>)

  function DefaultShearInputs(testType: string): ShearInputs
  {
    ShearInputs(testType, 20.0, 100.0, 100, 1.0, DRAINED, None)
  }

  /** A record the checks accept. */
  predicate ShearValid(x: ShearInputs)
  {
    (x.testType == TRIAXIAL || x.testType == DIRECT_SHEAR) && x.numberOfSteps > 0 &&
    x.durationInSeconds > 0.0 && ValidDrainage(x.drainage)
  }

  /** `validate`: test type, steps, duration and drainage, in that order. */
  function ValidateShear(x: ShearInputs): (r: Outcome)
    ensures r == Pass <==> ShearValid(x)
    ensures r.Fail? ==> r.error == ValueError
  {
    if x.testType != TRIAXIAL && x.testType != DIRECT_SHEAR then Fail(ValueError)
    else if x.numberOfSteps <= 0 then Fail(ValueError)
    else if x.durationInSeconds <= 0.0 then Fail(ValueError)
    else if !ValidDrainage(x.drainage) then Fail(ValueError)
    else Pass
  }

  /** The defaults pass for both test types; CRS is not a valid type for
      this record. */
  lemma ShearDefaults()
    ensures ValidateShear(DefaultShearInputs(TRIAXIAL)) == Pass
    ensures ValidateShear(DefaultShearInputs(DIRECT_SHEAR)) == Pass
    ensures ValidateShear(DefaultShearInputs(CRS)) == Fail(ValueError)
  {
  }

  // ------------------------------------------------------- strain increments

  datatype StrainIncrement = StrainIncrement(durationInHours: real, strainIncrement: real, steps: int)

  const DEFAULT_INCREMENT: StrainIncrement := StrainIncrement(1.0, 0.0, 100)

  predicate IncrementValid(s: StrainIncrement)
  {
    Abs(s.strainIncrement) < 100.0 && s.steps > 0 && s.durationInHours > 0.0
  }

  /** `StrainIncrement.validate`: |increment| < 100 %, steps and hours
      positive. */
  function ValidateIncrement(s: StrainIncrement): (r: Outcome)
    ensures r == Pass <==> IncrementValid(s)
    ensures r.Fail? ==> r.error == ValueError
  {
    if Abs(s.strainIncrement) >= 100.0 then Fail(ValueError)
    else if s.steps <= 0 then Fail(ValueError)
    else if s.durationInHours <= 0.0 then Fail(ValueError)
    else Pass
  }

  // ------------------------------------------------------------------ CRS

  /** `CRSSimulationInputs`. `duration` and `drainage` are not fields: they
      are attributes the input manager's setters add to the instance. */
  datatype CrsInputs = CrsInputs(
    testType: string,
    strainIncrements: seq<StrainIncrement>,
    maximumStrain: real,
    numberOfSteps: int,
    durationInSeconds: real,
    initialEffectiveCellPressure: real,
    duration: Option<real>,
    drainage: Option<string>)

  function DefaultCrsInputs(testType: string): CrsInputs
  {
    CrsInputs(testType, [DEFAULT_INCREMENT, DEFAULT_INCREMENT, DEFAULT_INCREMENT, DEFAULT_INCREMENT, DEFAULT_INCREMENT],
              0.0, 0, 0.0, 0.0, None, None)
  }

  /** The loop over the increments: the first that fails raises. */
  function ValidateIncrements(incs: seq<StrainIncrement>): (r: Outcome)
    ensures r == Pass <==> forall i :: 0 <= i < |incs| ==> IncrementValid(incs[i])
    ensures r.Fail? ==> r.error == ValueError
  {
    if incs == [] then Pass
    else match ValidateIncrement(incs[0])
      case Fail(e) => Fail(e)
      case Pass =>
        var rest := ValidateIncrements(incs[1..]);
        assert forall i :: 1 <= i < |incs| ==> incs[i] == incs[1..][i - 1];
        rest
  }

  /** CRS `validate`: any of the three test types, then every increment. */
  function ValidateCrs(x: CrsInputs): (r: Outcome)
    ensures r == Pass <==> ValidTestType(x.testType) && forall i :: 0 <= i < |x.strainIncrements| ==> IncrementValid(x.strainIncrements[i])
    ensures r.Fail? ==> r.error == ValueError
  {
    if !ValidTestType(x.testType) then Fail(ValueError) else ValidateIncrements(x.strainIncrements)
  }

  /** The defaults: five increments of 1 h, 0 % and 100 steps, all totals
      zero, and they validate. */
  lemma CrsDefaults()
    ensures var d := DefaultCrsInputs(CRS);
      |d.strainIncrements| == 5 && (forall i :: 0 <= i < 5 ==> d.strainIncrements[i] == DEFAULT_INCREMENT) &&
      d.maximumStrain == 0.0 && d.numberOfSteps == 0 && d.durationInSeconds == 0.0 &&
      ValidateCrs(d) == Pass
  {
  }

  // ----------------------------------------------------- Mohr–Coulomb

  /** `MohrCoulombOptions`: 1-based indices into the UDSM parameters. */
  datatype MohrCoulombOptions = MohrCoulombOptions(enabled: bool, cIndex: Option<int>, phiIndex: Option<int>)

  const DEFAULT_MOHR_COULOMB: MohrCoulombOptions := MohrCoulombOptions(false, None, None)

  /** `to_indices`: the pair, in that order, when enabled and both are set. */
  function ToIndices(o: MohrCoulombOptions): (r: Option<seq<int>>)
    ensures r.Some? <==> o.enabled && o.cIndex.Some? && o.phiIndex.Some?
    ensures r.Some? ==> r.value == [o.cIndex.value, o.phiIndex.value]
  {
    if !o.enabled || o.cIndex.None? || o.phiIndex.None? then None
    else Some([o.cIndex.value, o.phiIndex.value])
  }

  /** Disabled options give None whatever the indices, and so do the
      defaults. */
  lemma ToIndicesDisabled(c: Option<int>, phi: Option<int>)
    ensures ToIndices(MohrCoulombOptions(false, c, phi)).None?
    ensures ToIndices(DEFAULT_MOHR_COULOMB).None?
  {
  }

  // ------------------------------------------------- core SimulationInputs

  /** The core's `SimulationInputs`. */
  datatype CoreSimulationInputs = CoreSimulationInputs(
    testType: string,
    maximumStrain: real,
    initialEffectiveCellPressure: real,
    stressIncrement: real,
    numberOfSteps: int,
    duration: real,
    drainage: string,
    mohrCoulomb: MohrCoulombOptions)

  /** `validate`: the test type, then steps, then duration; drainage and the
      stress increment are not checked. */
  function ValidateCore(x: CoreSimulationInputs): (r: Outcome)
    ensures r == Pass <==> ValidTestType(x.testType) && x.numberOfSteps > 0 && x.duration > 0.0
    ensures r.Fail? ==> r.error == ValueError
  {
    if !ValidTestType(x.testType) then Fail(ValueError)
    else if x.numberOfSteps <= 0 then Fail(ValueError)
    else if x.duration <= 0.0 then Fail(ValueError)
    else Pass
  }

  /** Drainage and the stress increment never decide validation. */
  lemma ValidateCoreIgnoresDrainage(x: CoreSimulationInputs, drainage: string, stressIncrement: real)
    ensures ValidateCore(x.(drainage := drainage, stressIncrement := stressIncrement)) == ValidateCore(x)
  {
  }
}
