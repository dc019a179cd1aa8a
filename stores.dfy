/** The results of the last run of each test type, keyed by test type. A
    type without results reads as the empty dictionary. */
module ResultManager {

  /** `_results.get(test_type, {})`. */
  function Lookup<V>(results: map<string, map<string, V>>, testType: string): (r: map<string, V>)
    ensures testType in results ==> r == results[testType]
    ensures testType !in results ==> r == map[]
  {
    if testType in results then results[testType] else map[]
  }

  /** Reading back after a write: the written type gives the new results
      (replacing, not merging with, what was there), every other type what
      it gave before. */
  lemma LookupAfterSet<V>(results: map<string, map<string, V>>, written: string, r: map<string, V>, t: string)
    ensures Lookup(results[written := r], t) == if t == written then r else Lookup(results, t)
  {
  }

  class ResultManager<V> {
    var results: map<string, map<string, V>>

    constructor()
      ensures results == map[]
      ensures forall t :: GetResults(t) == map[]
    {
      results := map[];
    }

    /** `get_results`. */
    function GetResults(testType: string): map<string, V>
      reads this
    {
      Lookup(results, testType)
    }

    /** `set_results`. */
    method SetResults(expected: map<string, V>, testType: string)
      modifies this
      ensures results == old(results)[testType := expected]
      ensures GetResults(testType) == expected
      ensures forall t :: t != testType ==> GetResults(t) == old(GetResults(t))
    {
      results := results[testType := expected];
    }
  }
}

/** The material model the user picked; "" until one is picked. */
module MaterialInputManager {

  class MaterialInputManager {
    var currentMaterialType: string

    constructor()
      ensures GetCurrentMaterialType() == ""
    {
      currentMaterialType := "";
    }

    method SetCurrentMaterialType(materialType: string)
      modifies this
      ensures GetCurrentMaterialType() == materialType
    {
      currentMaterialType := materialType;
    }

    function GetCurrentMaterialType(): string
      reads this
    {
      currentMaterialType
    }
  }

  /** Of a sequence of writes, the last wins; no writes leave "". */
  function AfterWrites(writes: seq<string>): (r: string)
    ensures writes == [] ==> r == ""
    ensures writes != [] ==> r == writes[|writes| - 1]
  {
    if writes == [] then "" else writes[|writes| - 1]
  }

  /** Replaying the writes on a new manager reads back `AfterWrites`. */
  method Replay(writes: seq<string>) returns (current: string)
    ensures current == AfterWrites(writes)
  {
    var m := new MaterialInputManager();
    var i := 0;
    while i < |writes|
      invariant 0 <= i <= |writes|
      invariant m.GetCurrentMaterialType() == AfterWrites(writes[..i])
    {
      m.SetCurrentMaterialType(writes[i]);
      i := i + 1;
    }
    assert writes[..i] == writes;
    current := m.GetCurrentMaterialType();
  }
}

/** The bridge from the material inputs the user edits to the solver's
    parameters and the cohesion/friction-angle pair. The material input
    classes themselves are not part of this model: their
    `get_cohesion_and_phi` enters as the outcome of calling it. */
module MaterialInputDataUtils {
  import opened Common
  import opened CohesionPhi
  import opened SimulationInputs

  /** What calling `material_inputs.get_cohesion_and_phi()` does: return a
      pair or raise. A material class without the method raises
      AttributeError at the lookup. */
  datatype MethodOutcome = Returned(c: Option<real>, phi: Option<real>) | Raised(error: Error)

  /** `get_cohesion_and_phi`: an AttributeError becomes (None, None); any
      other exception propagates. */
  function GetCohesionAndPhi(call: MethodOutcome): (r: Result<(Option<real>, Option<real>)>)
    ensures call.Returned? ==> r == Ok((call.c, call.phi))
    ensures call.Raised? ==> (r.Ok? <==> call.error == AttributeError)
    ensures r.Ok? && call.Raised? ==> r.value == (None, None)
    ensures r.Err? ==> r.error == call.error
  {
    match call
    case Returned(c, phi) => Ok((c, phi))
    case Raised(e) => if e == AttributeError then Ok((None, None)) else Err(e)
  }

  /** A user-defined parameter; only its value reaches the solver. */
  datatype Parameter = Parameter(value: real)

  /** `convert_user_inputs_to_kratos_inputs`. */
  function ConvertUserInputs(params: map<string, Parameter>): (r: map<string, real>)
    ensures r.Keys == params.Keys
    ensures forall k :: k in params ==> r[k] == params[k].value
  {
    map k | k in params :: params[k].value
  }

  /** Converting after putting a parameter is putting its value after
      converting: each key converts independently of the others. */
  lemma ConvertAfterPut(params: map<string, Parameter>, k: string, p: Parameter)
    ensures ConvertUserInputs(params[k := p]) == ConvertUserInputs(params)[k := p.value]
  {
  }

  /** With Mohr–Coulomb enabled and indices 2 and 3, the 1-based lookup the
      run uses reads the second and third UDSM parameters; disabled, it
      gives (None, None) whatever the indices. */
  lemma UdsmCohesionPhi(parameters: seq<real>, c: Option<int>, phi: Option<int>)
    ensures GetCohesionPhi([1.0, 2.0, 3.0, 4.0], ToIndices(MohrCoulombOptions(true, Some(2), Some(3)))) ==
      Ok((Some(2.0), Some(3.0)))
    ensures GetCohesionPhi(parameters, ToIndices(MohrCoulombOptions(false, c, phi))) == Ok((None, None))
  {
    OneBasedLookup([1.0, 2.0, 3.0, 4.0], 2, 3);
  }
}
