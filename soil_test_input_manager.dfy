/** The store of the test inputs the user edits: one entry per displayed
    test name, and for CRS the bookkeeping that keeps the step count, the
    duration in seconds and the maximum strain equal to the totals of the
    strain increments. */
module SoilTestInputManager {
  import opened Common
  import opened SimulationInputs

  /** The display names that key the store. */
  const TRIAXIAL_NAME: string := "Triaxial"
  const DIRECT_SHEAR_NAME: string := "Direct Simple Shear"
  const CRS_NAME: string := "CRS"

  /** An entry of the store: a triaxial/shear record or a CRS record. */
  datatype Entry = ShearEntry(shear: ShearInputs) | CrsEntry(crs: CrsInputs)

  // ------------------------------------------------------------- totals

  function Steps(incs: seq<StrainIncrement>): seq<int>
  {
    seq(|incs|, i requires 0 <= i < |incs| => incs[i].steps)
  }

  function Hours(incs: seq<StrainIncrement>): seq<real>
  {
    seq(|incs|, i requires 0 <= i < |incs| => incs[i].durationInHours)
  }

  function Strains(incs: seq<StrainIncrement>): seq<real>
  {
    seq(|incs|, i requires 0 <= i < |incs| => incs[i].strainIncrement)
  }

  function HoursToSeconds(h: real): real
  {
    h * SECONDS_PER_HOUR
  }

  /** The three totals agree with the increments. */
  predicate TotalsHold(c: CrsInputs)
  {
    c.numberOfSteps == SumInt(Steps(c.strainIncrements)) &&
    c.durationInSeconds == HoursToSeconds(Sum(Hours(c.strainIncrements))) &&
    c.maximumStrain == Sum(Strains(c.strainIncrements))
  }

  /** `update_crs_totals` on one record: the three totals are recomputed and
      nothing else changes. */
  function WithTotals(c: CrsInputs): (r: CrsInputs)
    ensures TotalsHold(r)
    ensures r.(numberOfSteps := c.numberOfSteps, durationInSeconds := c.durationInSeconds,
               maximumStrain := c.maximumStrain) == c
  {
    c.(numberOfSteps := SumInt(Steps(c.strainIncrements)),
       durationInSeconds := HoursToSeconds(Sum(Hours(c.strainIncrements))),
       maximumStrain := Sum(Strains(c.strainIncrements)))
  }

  /** Replacing one element changes a sum by the difference. */
  lemma {:induction false} SumIntUpdate(xs: seq<int>, i: nat, v: int)
    requires i < |xs|
    ensures SumInt(xs[i := v]) == SumInt(xs) - xs[i] + v
    decreases |xs|
  {
    var n := |xs| - 1;
    assert xs[i := v][..n] == if i == n then xs[..n] else xs[..n][i := v];
    if i < n {
      SumIntUpdate(xs[..n], i, v);
    }
  }

  lemma {:induction false} SumUpdate(xs: seq<real>, i: nat, v: real)
    requires i < |xs|
    ensures Sum(xs[i := v]) == Sum(xs) - xs[i] + v
    decreases |xs|
  {
    var n := |xs| - 1;
    assert xs[i := v][..n] == if i == n then xs[..n] else xs[..n][i := v];
    if i < n {
      SumUpdate(xs[..n], i, v);
    }
  }

  /** Totals of the increments with one increment replaced: each total moves
      by the difference of the replaced field. */
  lemma ReplaceTotals(c: CrsInputs, i: nat, s: StrainIncrement)
    requires i < |c.strainIncrements|
    ensures var old_ := c.strainIncrements[i];
      var r := WithTotals(c.(strainIncrements := c.strainIncrements[i := s]));
      r.numberOfSteps == SumInt(Steps(c.strainIncrements)) - old_.steps + s.steps &&
      r.durationInSeconds == HoursToSeconds(Sum(Hours(c.strainIncrements)) - old_.durationInHours + s.durationInHours) &&
      r.maximumStrain == Sum(Strains(c.strainIncrements)) - old_.strainIncrement + s.strainIncrement
  {
    var incs := c.strainIncrements;
    var edited := incs[i := s];
    assert Steps(edited) == Steps(incs)[i := s.steps];
    assert Hours(edited) == Hours(incs)[i := s.durationInHours];
    assert Strains(edited) == Strains(incs)[i := s.strainIncrement];
    SumIntUpdate(Steps(incs), i, s.steps);
    SumUpdate(Hours(incs), i, s.durationInHours);
    SumUpdate(Strains(incs), i, s.strainIncrement);
  }

  /** Appending an increment adds its fields to the totals. */
  lemma AppendTotals(c: CrsInputs, s: StrainIncrement)
    ensures var r := WithTotals(c.(strainIncrements := c.strainIncrements + [s]));
      r.numberOfSteps == SumInt(Steps(c.strainIncrements)) + s.steps &&
      r.durationInSeconds == HoursToSeconds(Sum(Hours(c.strainIncrements)) + s.durationInHours) &&
      r.maximumStrain == Sum(Strains(c.strainIncrements)) + s.strainIncrement
  {
    var incs := c.strainIncrements + [s];
    assert Steps(incs)[..|incs| - 1] == Steps(c.strainIncrements);
    assert Hours(incs)[..|incs| - 1] == Hours(c.strainIncrements);
    assert Strains(incs)[..|incs| - 1] == Strains(c.strainIncrements);
  }

  /** A sum of n copies of v is n times v. */
  lemma {:induction false} SumIntConst(xs: seq<int>, v: int)
    requires forall i :: 0 <= i < |xs| ==> xs[i] == v
    ensures SumInt(xs) == |xs| * v
    decreases |xs|
  {
    if xs != [] {
      var n := |xs| - 1;
      SumIntConst(xs[..n], v);
      assert SumInt(xs) == n * v + v;
    }
  }

  lemma {:induction false} SumConst(xs: seq<real>, v: real)
    requires forall i :: 0 <= i < |xs| ==> xs[i] == v
    ensures Sum(xs) == (|xs| as real) * v
    decreases |xs|
  {
    if xs != [] {
      var n := |xs| - 1;
      SumConst(xs[..n], v);
      assert Sum(xs) == (n as real) * v + v;
    }
  }

  /** n equal increments total n times each field. */
  lemma UniformTotals(incs: seq<StrainIncrement>, s: StrainIncrement)
    requires forall i :: 0 <= i < |incs| ==> incs[i] == s
    ensures SumInt(Steps(incs)) == |incs| * s.steps
    ensures Sum(Hours(incs)) == (|incs| as real) * s.durationInHours
    ensures Sum(Strains(incs)) == (|incs| as real) * s.strainIncrement
  {
    SumIntConst(Steps(incs), s.steps);
    SumConst(Hours(incs), s.durationInHours);
    SumConst(Strains(incs), s.strainIncrement);
  }

  /** Five default increments: 500 steps, 5 h = 18000 s, strain 0. */
  lemma DefaultTotals()
    ensures var c := WithTotals(DefaultCrsInputs(CRS));
      c.numberOfSteps == 500 && c.durationInSeconds == 18000.0 && c.maximumStrain == 0.0
  {
    UniformTotals(DefaultCrsInputs(CRS).strainIncrements, DEFAULT_INCREMENT);
  }

  // -------------------------------------------------------------- store

  /** The entries the constructor creates, the CRS totals computed. */
  function InitialData(): map<string, Entry>
  {
    map[TRIAXIAL_NAME := ShearEntry(DefaultShearInputs(TRIAXIAL)),
        DIRECT_SHEAR_NAME := ShearEntry(DefaultShearInputs(DIRECT_SHEAR)),
        CRS_NAME := CrsEntry(WithTotals(DefaultCrsInputs(CRS)))]
  }

  /** `update_init_pressure` on one entry. */
  function WithPressure(e: Entry, p: real): Entry
  {
    match e
    case ShearEntry(s) => ShearEntry(s.(initialEffectiveCellPressure := p))
    case CrsEntry(c) => CrsEntry(c.(initialEffectiveCellPressure := p))
  }

  function WithMaxStrain(e: Entry, v: real): Entry
  {
    match e
    case ShearEntry(s) => ShearEntry(s.(maximumStrain := v))
    case CrsEntry(c) => CrsEntry(c.(maximumStrain := v))
  }

  function WithNumSteps(e: Entry, n: int): Entry
  {
    match e
    case ShearEntry(s) => ShearEntry(s.(numberOfSteps := n))
    case CrsEntry(c) => CrsEntry(c.(numberOfSteps := n))
  }

  /** `update_duration` writes the attribute `duration`, never
      `duration_in_seconds`. */
  function WithDuration(e: Entry, v: real): Entry
  {
    match e
    case ShearEntry(s) => ShearEntry(s.(duration := Some(v)))
    case CrsEntry(c) => CrsEntry(c.(duration := Some(v)))
  }

  /** `update_drainage`: the field of a shear record, a new attribute of a
      CRS record. */
  function WithDrainage(e: Entry, d: string): Entry
  {
    match e
    case ShearEntry(s) => ShearEntry(s.(drainage := d))
    case CrsEntry(c) => CrsEntry(c.(drainage := Some(d)))
  }

  /** The CRS record with its last increment popped, as written: the totals
      keep their old values. */
  function PopLast(c: CrsInputs): CrsInputs
  {
    if |c.strainIncrements| > 1 then c.(strainIncrements := c.strainIncrements[..|c.strainIncrements| - 1]) else c
  }

  class InputManager {
    var inputData: map<string, Entry>

    /** The three display names, each with the record of its kind, and at
        least one CRS increment. */
    predicate Valid()
      reads this
    {
      inputData.Keys == {TRIAXIAL_NAME, DIRECT_SHEAR_NAME, CRS_NAME} &&
      inputData[TRIAXIAL_NAME].ShearEntry? && inputData[DIRECT_SHEAR_NAME].ShearEntry? &&
      inputData[CRS_NAME].CrsEntry? && |inputData[CRS_NAME].crs.strainIncrements| >= 1
    }

    function Crs(): CrsInputs
      requires Valid()
      reads this
    {
      inputData[CRS_NAME].crs
    }

    constructor()
      ensures Valid() && inputData == InitialData() && TotalsHold(Crs())
    {
      inputData := map[TRIAXIAL_NAME := ShearEntry(DefaultShearInputs(TRIAXIAL)),
                       DIRECT_SHEAR_NAME := ShearEntry(DefaultShearInputs(DIRECT_SHEAR)),
                       CRS_NAME := CrsEntry(DefaultCrsInputs(CRS))];
      new;
      UpdateCrsTotals();
    }

    /** `update_crs_totals`. */
    method UpdateCrsTotals()
      requires Valid()
      modifies this
      ensures Valid() && inputData == old(inputData)[CRS_NAME := CrsEntry(WithTotals(old(Crs())))]
      ensures TotalsHold(Crs())
    {
      inputData := inputData[CRS_NAME := CrsEntry(WithTotals(Crs()))];
    }

    /** `set_crs_strain_increment`: a Python index into the increments (a
        negative one counts from the end); out of range raises IndexError
        and nothing changes. */
    method SetCrsStrainIncrement(index: int, v: real) returns (r: Outcome)
      requires Valid()
      modifies this
      ensures Valid()
      ensures var pos := PyPosition(|old(Crs()).strainIncrements|, index);
        (r == Pass <==> pos.Some?) && (r.Fail? ==> r.error == IndexError && inputData == old(inputData)) &&
        (pos.Some? ==>
          var incs := old(Crs()).strainIncrements;
          inputData == old(inputData)[CRS_NAME := CrsEntry(WithTotals(old(Crs()).(
            strainIncrements := incs[pos.value := incs[pos.value].(strainIncrement := v)])))])
      ensures TotalsHold(old(Crs())) ==> TotalsHold(Crs())
    {
      var incs := Crs().strainIncrements;
      var pos := PyPosition(|incs|, index);
      if pos.None? {
        return Fail(IndexError);
      }
      var i := pos.value;
      inputData := inputData[CRS_NAME := CrsEntry(Crs().(strainIncrements := incs[i := incs[i].(strainIncrement := v)]))];
      UpdateCrsTotals();
      r := Pass;
    }

    /** `set_crs_duration`. */
    method SetCrsDuration(index: int, hours: real) returns (r: Outcome)
      requires Valid()
      modifies this
      ensures Valid()
      ensures var pos := PyPosition(|old(Crs()).strainIncrements|, index);
        (r == Pass <==> pos.Some?) && (r.Fail? ==> r.error == IndexError && inputData == old(inputData)) &&
        (pos.Some? ==>
          var incs := old(Crs()).strainIncrements;
          inputData == old(inputData)[CRS_NAME := CrsEntry(WithTotals(old(Crs()).(
            strainIncrements := incs[pos.value := incs[pos.value].(durationInHours := hours)])))])
      ensures TotalsHold(old(Crs())) ==> TotalsHold(Crs())
    {
      var incs := Crs().strainIncrements;
      var pos := PyPosition(|incs|, index);
      if pos.None? {
        return Fail(IndexError);
      }
      var i := pos.value;
      inputData := inputData[CRS_NAME := CrsEntry(Crs().(strainIncrements := incs[i := incs[i].(durationInHours := hours)]))];
      UpdateCrsTotals();
      r := Pass;
    }

    /** `set_crs_steps`. */
    method SetCrsSteps(index: int, steps: int) returns (r: Outcome)
      requires Valid()
      modifies this
      ensures Valid()
      ensures var pos := PyPosition(|old(Crs()).strainIncrements|, index);
        (r == Pass <==> pos.Some?) && (r.Fail? ==> r.error == IndexError && inputData == old(inputData)) &&
        (pos.Some? ==>
          var incs := old(Crs()).strainIncrements;
          inputData == old(inputData)[CRS_NAME := CrsEntry(WithTotals(old(Crs()).(
            strainIncrements := incs[pos.value := incs[pos.value].(steps := steps)])))])
      ensures TotalsHold(old(Crs())) ==> TotalsHold(Crs())
    {
      var incs := Crs().strainIncrements;
      var pos := PyPosition(|incs|, index);
      if pos.None? {
        return Fail(IndexError);
      }
      var i := pos.value;
      inputData := inputData[CRS_NAME := CrsEntry(Crs().(strainIncrements := incs[i := incs[i].(steps := steps)]))];
      UpdateCrsTotals();
      r := Pass;
    }

    /** `update_init_pressure`: `input_data[test_type]` raises KeyError for a
        name the store does not hold. */
    method UpdateInitPressure(p: real, testType: string) returns (r: Outcome)
      requires Valid()
      modifies this
      ensures Valid()
      ensures (r == Pass <==> testType in old(inputData)) && (r.Fail? ==> r.error == KeyError)
      ensures inputData == if testType in old(inputData)
                           then old(inputData)[testType := WithPressure(old(inputData)[testType], p)]
                           else old(inputData)
    {
      if testType !in inputData {
        return Fail(KeyError);
      }
      inputData := inputData[testType := WithPressure(inputData[testType], p)];
      r := Pass;
    }

    /** `update_max_strain`. */
    method UpdateMaxStrain(v: real, testType: string) returns (r: Outcome)
      requires Valid()
      modifies this
      ensures Valid()
      ensures (r == Pass <==> testType in old(inputData)) && (r.Fail? ==> r.error == KeyError)
      ensures inputData == if testType in old(inputData)
                           then old(inputData)[testType := WithMaxStrain(old(inputData)[testType], v)]
                           else old(inputData)
    {
      if testType !in inputData {
        return Fail(KeyError);
      }
      inputData := inputData[testType := WithMaxStrain(inputData[testType], v)];
      r := Pass;
    }

    /** `update_num_steps`. */
    method UpdateNumSteps(n: int, testType: string) returns (r: Outcome)
      requires Valid()
      modifies this
      ensures Valid()
      ensures (r == Pass <==> testType in old(inputData)) && (r.Fail? ==> r.error == KeyError)
      ensures inputData == if testType in old(inputData)
                           then old(inputData)[testType := WithNumSteps(old(inputData)[testType], n)]
                           else old(inputData)
    {
      if testType !in inputData {
        return Fail(KeyError);
      }
      inputData := inputData[testType := WithNumSteps(inputData[testType], n)];
      r := Pass;
    }

    /** `update_duration`. */
    method UpdateDuration(v: real, testType: string) returns (r: Outcome)
      requires Valid()
      modifies this
      ensures Valid()
      ensures (r == Pass <==> testType in old(inputData)) && (r.Fail? ==> r.error == KeyError)
      ensures inputData == if testType in old(inputData)
                           then old(inputData)[testType := WithDuration(old(inputData)[testType], v)]
                           else old(inputData)
    {
      if testType !in inputData {
        return Fail(KeyError);
      }
      inputData := inputData[testType := WithDuration(inputData[testType], v)];
      r := Pass;
    }

    /** `update_drainage`. */
    method UpdateDrainage(d: string, testType: string) returns (r: Outcome)
      requires Valid()
      modifies this
      ensures Valid()
      ensures (r == Pass <==> testType in old(inputData)) && (r.Fail? ==> r.error == KeyError)
      ensures inputData == if testType in old(inputData)
                           then old(inputData)[testType := WithDrainage(old(inputData)[testType], d)]
                           else old(inputData)
    {
      if testType !in inputData {
        return Fail(KeyError);
      }
      inputData := inputData[testType := WithDrainage(inputData[testType], d)];
      r := Pass;
    }

    /** `add_strain_increment`: a default increment, then the totals. */
    method AddStrainIncrement()
      requires Valid()
      modifies this
      ensures Valid()
      ensures inputData == old(inputData)[CRS_NAME := CrsEntry(WithTotals(old(Crs()).(
        strainIncrements := old(Crs()).strainIncrements + [DEFAULT_INCREMENT])))]
    {
      inputData := inputData[CRS_NAME := CrsEntry(Crs().(strainIncrements := Crs().strainIncrements + [DEFAULT_INCREMENT]))];
      UpdateCrsTotals();
    }

    /** `remove_last_crs_strain_increment` as written: pops only while more
        than one increment remains, and does not recompute the totals. */
    method RemoveLastCrsStrainIncrement()
      requires Valid()
      modifies this
      ensures Valid()
      ensures inputData == old(inputData)[CRS_NAME := CrsEntry(PopLast(old(Crs())))]
    {
      var c := Crs();
      if |c.strainIncrements| > 1 {
        inputData := inputData[CRS_NAME := CrsEntry(c.(strainIncrements := c.strainIncrements[..|c.strainIncrements| - 1]))];
      }
    }

    /** The removal with the totals recomputed, as adding and editing an
        increment do. */
    method RemoveLastCrsStrainIncrementWithTotals()
      requires Valid()
      modifies this
      ensures Valid()
      ensures inputData == old(inputData)[CRS_NAME := CrsEntry(WithTotals(PopLast(old(Crs()))))]
      ensures TotalsHold(Crs())
    {
      RemoveLastCrsStrainIncrement();
      UpdateCrsTotals();
    }
  }

  /** The store starts with three entries whose CRS totals are those of
      five default increments. */
  lemma InitialStore()
    ensures |InitialData()| == 3
    ensures InitialData()[CRS_NAME].CrsEntry? &&
      InitialData()[CRS_NAME].crs.numberOfSteps == 500 &&
      InitialData()[CRS_NAME].crs.durationInSeconds == 5.0 * 3600.0 &&
      InitialData()[CRS_NAME].crs.maximumStrain == 0.0
  {
    DefaultTotals();
    assert InitialData().Keys == {TRIAXIAL_NAME, DIRECT_SHEAR_NAME, CRS_NAME};
  }

  /** Setting the steps of increment 0 to 150 on the defaults gives 550
      steps; its duration to 1.5 h gives 5.5 h; increments 0 and 1 set to
      0.02 and 0.04 give a maximum strain of 0.06. */
  lemma EditedDefaults()
    ensures var c := WithTotals(DefaultCrsInputs(CRS));
      var incs := c.strainIncrements;
      WithTotals(c.(strainIncrements := incs[0 := incs[0].(steps := 150)])).numberOfSteps == 550 &&
      WithTotals(c.(strainIncrements := incs[0 := incs[0].(durationInHours := 1.5)])).durationInSeconds == 5.5 * 3600.0 &&
      var c1 := WithTotals(c.(strainIncrements := incs[0 := incs[0].(strainIncrement := 0.02)]));
      var incs1 := c1.strainIncrements;
      WithTotals(c1.(strainIncrements := incs1[1 := incs1[1].(strainIncrement := 0.04)])).maximumStrain == 0.06
  {
    var c := WithTotals(DefaultCrsInputs(CRS));
    DefaultTotals();
    var incs := c.strainIncrements;
    ReplaceTotals(c, 0, incs[0].(steps := 150));
    ReplaceTotals(c, 0, incs[0].(durationInHours := 1.5));
    ReplaceTotals(c, 0, incs[0].(strainIncrement := 0.02));
    var c1 := WithTotals(c.(strainIncrements := incs[0 := incs[0].(strainIncrement := 0.02)]));
    ReplaceTotals(c1, 1, c1.strainIncrements[1].(strainIncrement := 0.04));
  }

  /** The removal as written leaves stale totals: from the initial store,
      four increments remain but the step count still says 500. */
  lemma RemovalLeavesStaleTotals()
    ensures var c := PopLast(WithTotals(DefaultCrsInputs(CRS)));
      |c.strainIncrements| == 4 && c.numberOfSteps == 500 && !TotalsHold(c)
  {
    var full := DefaultCrsInputs(CRS).strainIncrements;
    UniformTotals(full, DEFAULT_INCREMENT);
    var c := PopLast(WithTotals(DefaultCrsInputs(CRS)));
    assert c.strainIncrements == full[..4];
    UniformTotals(c.strainIncrements, DEFAULT_INCREMENT);
    assert SumInt(Steps(c.strainIncrements)) == 400;
  }

  /** The corrected removal keeps the totals whatever the count, and never
      drops below one increment. */
  lemma CorrectedRemovalKeepsTotals(c: CrsInputs)
    requires |c.strainIncrements| >= 1
    ensures var r := WithTotals(PopLast(c));
      TotalsHold(r) && |r.strainIncrements| == if |c.strainIncrements| > 1 then |c.strainIncrements| - 1 else 1
  {
  }
}
