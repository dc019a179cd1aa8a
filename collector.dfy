/** Result collection over all stages: the two `ResultCollector` classes and
    the post-processing loop of the generic test runner. */
module Collector {
  import opened Common
  import opened GidOutput
  import opened Extract
  import Groups
  import opened StrainOffset
  import opened Principal
  import opened CohesionPhi

  /** Everything one stage's result file reduces to. */
  datatype StageSeries = StageSeries(
    tensors: Groups.Groups<Matrix>,
    shearXy: seq<real>,
    strains: Strains,
    vonMises: seq<Item>,
    meanStress: seq<Item>,
    sigma: SigmaXxYy,
    timeSteps: seq<real>)

  /** The body of the stage loop before accumulation, extractor by extractor
      in the order the source calls them, so the first failing one decides
      the exception. */
  function ReduceStage(output: StageOutput, skipNull: bool): (r: Result<StageSeries>)
    ensures r.Ok? ==> Groups.Valid(r.value.tensors)
  {
    var b := BucketsOf(output);
    var tensors :- StressTensors(b.stress, skipNull);
    var shear :- ShearStressXy(b.stress, skipNull);
    var strains :- StrainsOf(b.strain, skipNull);
    var vonMises :- ScalarStresses(b.vonMises);
    var meanStress :- ScalarStresses(b.meanStress);
    var sigma :- SigmaXxYyOf(b.stress);
    Ok(StageSeries(tensors, shear, strains, vonMises, meanStress, sigma, TimeStepsOf(output)))
  }

  method ReduceStageResults(output: StageOutput, skipNull: bool) returns (r: Result<StageSeries>, log: seq<LogEntry>)
    ensures r == ReduceStage(output, skipNull) && log == ReadLog(output)
  {
    var b, t, readLog := ReadResults(output);
    log := readLog;
    var tensors :- ExtractStressTensors(b.stress, skipNull);
    var shear :- ExtractShearStressXy(b.stress, skipNull);
    var strains :- ComputeStrains(b.strain, skipNull);
    var vonMises :- ScalarStresses(b.vonMises);
    var meanStress :- ScalarStresses(b.meanStress);
    var sigma :- ExtractSigmaXxYy(b.stress);
    r := Ok(StageSeries(tensors, shear, strains, vonMises, meanStress, sigma, t));
  }

  function Reducer(skipNull: bool): StageOutput -> Result<StageSeries>
  {
    o => ReduceStage(o, skipNull)
  }

  /** All stages reduced, or the exception of the first stage that fails. */
  function ReduceAll(outputs: seq<StageOutput>, skipNull: bool): (r: Result<seq<StageSeries>>)
    ensures r.Ok? ==> |r.value| == |outputs|
    ensures r.Ok? ==> forall k :: 0 <= k < |r.value| ==> Groups.Valid(r.value[k].tensors)
  {
    var r := Traverse(Reducer(skipNull), outputs);
    if r.Err? then r
    else
      ReduceAllValid(outputs, skipNull);
      r
  }

  lemma {:induction false} ReduceAllValid(outputs: seq<StageOutput>, skipNull: bool)
    requires Traverse(Reducer(skipNull), outputs).Ok?
    ensures forall k :: 0 <= k < |outputs| ==> Groups.Valid(Traverse(Reducer(skipNull), outputs).value[k].tensors)
  {
    forall k | 0 <= k < |outputs|
      ensures Groups.Valid(Traverse(Reducer(skipNull), outputs).value[k].tensors)
    {
      TraverseAt(Reducer(skipNull), outputs, k);
    }
  }

  /** Stage `k` of a successful collection is what stage `k`'s file reduces to. */
  lemma {:induction false} ReduceAllAt(outputs: seq<StageOutput>, skipNull: bool, k: nat)
    requires ReduceAll(outputs, skipNull).Ok?
    requires k < |outputs|
    ensures ReduceStage(outputs[k], skipNull) == Ok(ReduceAll(outputs, skipNull).value[k])
  {
    TraverseAt(Reducer(skipNull), outputs, k);
  }

  /** One step of the stage loop: stage `i` reduces and is appended. */
  lemma {:induction false} ReduceAllSnocOk(outputs: seq<StageOutput>, i: nat, skipNull: bool, ss: seq<StageSeries>, s: StageSeries)
    requires i < |outputs|
    requires ReduceAll(outputs[..i], skipNull) == Ok(ss)
    requires ReduceStage(outputs[i], skipNull) == Ok(s)
    ensures ReduceAll(outputs[..i + 1], skipNull) == Ok(ss + [s])
  {
    TraverseSnocOk(Reducer(skipNull), outputs, i, ss, s);
  }

  /** One step of the stage loop: stage `i` raises, and so does the collection. */
  lemma {:induction false} ReduceAllSnocErr(outputs: seq<StageOutput>, i: nat, skipNull: bool)
    requires i < |outputs|
    requires ReduceAll(outputs[..i], skipNull).Ok?
    requires ReduceStage(outputs[i], skipNull).Err?
    ensures ReduceAll(outputs, skipNull) == Err(ReduceStage(outputs[i], skipNull).error)
  {
    TraverseSnocErr(Reducer(skipNull), outputs, i);
  }

  /** What a stage loop logs: the reading warnings of every stage up to and
      including the first one that raises. */
  function CollectLog(outputs: seq<StageOutput>, skipNull: bool): seq<LogEntry>
  {
    if outputs == [] then []
    else
      var init := outputs[..|outputs| - 1];
      if ReduceAll(init, skipNull).Err? then CollectLog(init, skipNull)
      else CollectLog(init, skipNull) + ReadLog(outputs[|outputs| - 1])
  }

  /** The paths of the missing result files, in stage order. */
  function MissingPaths(outputs: seq<StageOutput>): (ps: seq<string>)
    ensures |ps| <= |outputs|
    ensures forall j :: 0 <= j < |ps| ==> Missing(ps[j]) in outputs
  {
    if outputs == [] then []
    else
      var init := MissingPaths(outputs[..|outputs| - 1]);
      var last := outputs[|outputs| - 1];
      assert forall j :: 0 <= j < |init| ==> Missing(init[j]) in outputs by {
        forall j | 0 <= j < |init| ensures Missing(init[j]) in outputs {
          var k :| 0 <= k < |outputs| - 1 && outputs[..|outputs| - 1][k] == Missing(init[j]);
          assert outputs[k] == Missing(init[j]);
        }
      }
      if last.Missing? then init + [last.path] else init
  }

  /** The reading warnings of all the given stages, in order. */
  function ReadLogs(outputs: seq<StageOutput>): seq<LogEntry>
  {
    if outputs == [] then [] else ReadLogs(outputs[..|outputs| - 1]) + ReadLog(outputs[|outputs| - 1])
  }

  lemma ReadLogsSnoc(outputs: seq<StageOutput>, i: nat)
    requires i < |outputs|
    ensures ReadLogs(outputs[..i + 1]) == ReadLogs(outputs[..i]) + ReadLog(outputs[i])
  {
    assert outputs[..i + 1][..i] == outputs[..i];
  }

  /** When no stage raises, every stage is read and logs its warnings. */
  lemma {:induction false} CollectLogAllRead(outputs: seq<StageOutput>, skipNull: bool)
    requires ReduceAll(outputs, skipNull).Ok?
    ensures CollectLog(outputs, skipNull) == ReadLogs(outputs)
  {
    if outputs != [] {
      var init := outputs[..|outputs| - 1];
      assert ReduceAll(init, skipNull).Ok?;
      CollectLogAllRead(init, skipNull);
    }
  }

  /** One step of the stage loop's log: a stage read after successful ones
      adds its own reading warnings. */
  lemma {:induction false} CollectLogSnoc(outputs: seq<StageOutput>, i: nat, skipNull: bool)
    requires i < |outputs|
    requires ReduceAll(outputs[..i], skipNull).Ok?
    ensures CollectLog(outputs[..i + 1], skipNull) == CollectLog(outputs[..i], skipNull) + ReadLog(outputs[i])
  {
    assert outputs[..i + 1][..i] == outputs[..i];
  }

  /** Once a prefix of the stages raises, later stages log nothing. */
  lemma {:induction false} CollectLogSticks(outputs: seq<StageOutput>, skipNull: bool, i: nat)
    requires i <= |outputs|
    requires ReduceAll(outputs[..i], skipNull).Err?
    ensures CollectLog(outputs, skipNull) == CollectLog(outputs[..i], skipNull)
    decreases |outputs|
  {
    if i < |outputs| {
      var init := outputs[..|outputs| - 1];
      assert init[..i] == outputs[..i];
      TraverseFailureSticks(Reducer(skipNull), init, i);
      assert ReduceAll(init, skipNull).Err?;
      CollectLogSticks(init, skipNull, i);
    } else {
      assert outputs[..i] == outputs;
    }
  }

  /** The stage that raises ends the log: the warnings are those of the
      stages up to and including it. */
  lemma {:induction false} CollectLogStops(outputs: seq<StageOutput>, i: nat, skipNull: bool)
    requires i < |outputs|
    requires ReduceAll(outputs[..i], skipNull).Ok?
    requires ReduceStage(outputs[i], skipNull).Err?
    ensures CollectLog(outputs, skipNull) == ReadLogs(outputs[..i + 1])
  {
    CollectLogAllRead(outputs[..i], skipNull);
    ReadLogsSnoc(outputs, i);
    CollectLogSnoc(outputs, i, skipNull);
    assert outputs[..i + 1][..i] == outputs[..i];
    TraverseSnocErr(Reducer(skipNull), outputs[..i + 1], i);
    CollectLogSticks(outputs, skipNull, i + 1);
  }

  /** The stage loop meets a stage that raises: the collection raises its
      exception, and the log ends with that stage's warnings. */
  lemma StageRaises(outputs: seq<StageOutput>, i: nat, skipNull: bool)
    requires i < |outputs|
    requires ReduceAll(outputs[..i], skipNull).Ok?
    requires ReduceStage(outputs[i], skipNull).Err?
    ensures ReduceAll(outputs, skipNull) == Err(ReduceStage(outputs[i], skipNull).error)
    ensures CollectLog(outputs, skipNull) == ReadLogs(outputs[..i]) + ReadLog(outputs[i])
  {
    ReduceAllSnocErr(outputs, i, skipNull);
    CollectLogStops(outputs, i, skipNull);
    ReadLogsSnoc(outputs, i);
  }

  /** A collection that raises nothing logs exactly one warning per missing
      result file, naming it, in stage order. */
  lemma {:induction false} CollectLogWarnsMissing(outputs: seq<StageOutput>, skipNull: bool)
    requires ReduceAll(outputs, skipNull).Ok?
    ensures var log := CollectLog(outputs, skipNull);
      var ps := MissingPaths(outputs);
      |log| == |ps| && forall j :: 0 <= j < |log| ==> log[j] == Message(WarnLevel, MISSING_RESULT_FILE + ps[j])
  {
    if outputs != [] {
      var init := outputs[..|outputs| - 1];
      assert ReduceAll(init, skipNull).Ok?;
      CollectLogWarnsMissing(init, skipNull);
    }
  }

  /** A stage that raises is one whose file was read, so it adds no warning. */
  lemma MissingNeverRaises(output: StageOutput, skipNull: bool)
    requires ReduceStage(output, skipNull).Err?
    ensures output.Present? && ReadLog(output) == []
  {
    if output.Missing? {
      MissingFileContributesNothing(output.path, skipNull);
    }
  }

  /** The plain series of a stage, concatenated across stages. */
  datatype Column = ShearXyCol | VolCol | ShearStrainXyCol | SigmaXxCol | SigmaYyCol | TimeCol

  function Col(s: StageSeries, c: Column): seq<real>
  {
    match c
    case ShearXyCol => s.shearXy
    case VolCol => s.strains.vol
    case ShearStrainXyCol => s.strains.shearXy
    case SigmaXxCol => s.sigma.xx
    case SigmaYyCol => s.sigma.yy
    case TimeCol => s.timeSteps
  }

  /** `all_x.extend(x)` over the stages, for a plain series. */
  function Concat(ss: seq<StageSeries>, c: Column): seq<real>
  {
    if ss == [] then [] else Concat(ss[..|ss| - 1], c) + Col(ss[|ss| - 1], c)
  }

  /** The series of scalar items, kept as they are (None included). */
  datatype ItemColumn = VonMisesCol | MeanStressCol

  function ItemCol(s: StageSeries, c: ItemColumn): seq<Item>
  {
    match c
    case VonMisesCol => s.vonMises
    case MeanStressCol => s.meanStress
  }

  function ConcatItems(ss: seq<StageSeries>, c: ItemColumn): seq<Item>
  {
    if ss == [] then [] else ConcatItems(ss[..|ss| - 1], c) + ItemCol(ss[|ss| - 1], c)
  }

  /** The yy strains kept stage by stage, for the strain offset. */
  function YyStages(ss: seq<StageSeries>): (ys: seq<seq<real>>)
    ensures |ys| == |ss|
  {
    if ss == [] then [] else YyStages(ss[..|ss| - 1]) + [ss[|ss| - 1].strains.yy]
  }

  lemma {:induction false} ConcatSnoc(ss: seq<StageSeries>, s: StageSeries)
    ensures forall c :: Concat(ss + [s], c) == Concat(ss, c) + Col(s, c)
    ensures forall c :: ConcatItems(ss + [s], c) == ConcatItems(ss, c) + ItemCol(s, c)
    ensures YyStages(ss + [s]) == YyStages(ss) + [s.strains.yy]
  {
    assert (ss + [s])[..|ss|] == ss;
  }

  lemma ConcatColSnoc(ss: seq<StageSeries>, s: StageSeries, c: Column)
    ensures Concat(ss + [s], c) == Concat(ss, c) + Col(s, c)
  {
    assert (ss + [s])[..|ss|] == ss;
  }

  lemma ConcatItemColSnoc(ss: seq<StageSeries>, s: StageSeries, c: ItemColumn)
    ensures ConcatItems(ss + [s], c) == ConcatItems(ss, c) + ItemCol(s, c)
  {
    assert (ss + [s])[..|ss|] == ss;
  }

  lemma YyStagesSnoc(ss: seq<StageSeries>, s: StageSeries)
    ensures YyStages(ss + [s]) == YyStages(ss) + [s.strains.yy]
  {
    assert (ss + [s])[..|ss|] == ss;
  }

  /** Concatenating stage by stage is flattening the per-stage series: every
      value of every stage is kept, in stage order. */
  lemma {:induction false} ConcatIsFlatten(ss: seq<StageSeries>, c: Column)
    ensures Concat(ss, c) == Flatten(seq(|ss|, k requires 0 <= k < |ss| => Col(ss[k], c)))
  {
    if ss != [] {
      var init := ss[..|ss| - 1];
      ConcatIsFlatten(init, c);
      var all := seq(|ss|, k requires 0 <= k < |ss| => Col(ss[k], c));
      assert all[..|all| - 1] == seq(|init|, k requires 0 <= k < |init| => Col(init[k], c));
    }
  }

  /** The stages' tensor dictionaries merged in stage order. */
  function MergeTensors(ss: seq<StageSeries>): (g: Groups.Groups<Matrix>)
    requires forall k :: 0 <= k < |ss| ==> Groups.Valid(ss[k].tensors)
    ensures Groups.Valid(g)
  {
    if ss == [] then Groups.Empty()
    else Groups.Merge(MergeTensors(ss[..|ss| - 1]), ss[|ss| - 1].tensors)
  }

  lemma {:induction false} MergeTensorsSnoc(ss: seq<StageSeries>, s: StageSeries)
    requires forall k :: 0 <= k < |ss| ==> Groups.Valid(ss[k].tensors)
    requires Groups.Valid(s.tensors)
    ensures MergeTensors(ss + [s]) == Groups.Merge(MergeTensors(ss), s.tensors)
  {
    assert (ss + [s])[..|ss|] == ss;
  }

  /** Under every time key, the tensors of all stages in stage order. */
  lemma {:induction false} MergeTensorsGet(ss: seq<StageSeries>, t: real)
    requires forall k :: 0 <= k < |ss| ==> Groups.Valid(ss[k].tensors)
    ensures Groups.Get(MergeTensors(ss), t) == Flatten(seq(|ss|, k requires 0 <= k < |ss| => Groups.Get(ss[k].tensors, t)))
  {
    if ss != [] {
      var init := ss[..|ss| - 1];
      MergeTensorsGet(init, t);
      Groups.MergeGet(MergeTensors(init), ss[|ss| - 1].tensors, t);
      var all := seq(|ss|, k requires 0 <= k < |ss| => Groups.Get(ss[k].tensors, t));
      assert all[..|all| - 1] == seq(|init|, k requires 0 <= k < |init| => Groups.Get(init[k].tensors, t));
    }
  }

  /** `seconds_to_hours` on every time step. */
  function ToHours(xs: seq<real>): (hs: seq<real>)
    ensures |hs| == |xs|
    ensures forall k :: 0 <= k < |xs| ==> hs[k] == xs[k] / SECONDS_PER_HOUR
  {
    seq(|xs|, k requires 0 <= k < |xs| => xs[k] / SECONDS_PER_HOUR)
  }

  lemma {:induction false} ToHoursAppend(a: seq<real>, b: seq<real>)
    ensures ToHours(a + b) == ToHours(a) + ToHours(b)
  {
    assert ToHours(a + b) == ToHours(a) + ToHours(b);
  }

  /** What the stage loop of a collector accumulates, before the strain
      offset and the principal stresses. */
  datatype Accumulated = Accumulated(
    tensors: Groups.Groups<Matrix>,
    yyStages: seq<seq<real>>,
    shearXy: seq<real>,
    volStrain: seq<real>,
    shearStrainXy: seq<real>,
    vonMises: seq<Item>,
    meanStress: seq<Item>,
    sigmaXx: seq<real>,
    sigmaYy: seq<real>,
    timeSteps: seq<real>)

  /** The collectors' accumulation over reduced stages: tensor lists merged
      per time, yy strains kept per stage, every other series concatenated
      in stage order, time steps converted from seconds to hours. */
  function Collected(ss: seq<StageSeries>): (acc: Accumulated)
    requires forall k :: 0 <= k < |ss| ==> Groups.Valid(ss[k].tensors)
    ensures Groups.Valid(acc.tensors)
  {
    Accumulated(
      MergeTensors(ss),
      YyStages(ss),
      Concat(ss, ShearXyCol),
      Concat(ss, VolCol),
      Concat(ss, ShearStrainXyCol),
      ConcatItems(ss, VonMisesCol),
      ConcatItems(ss, MeanStressCol),
      Concat(ss, SigmaXxCol),
      Concat(ss, SigmaYyCol),
      ToHours(Concat(ss, TimeCol)))
  }

  /** The accumulation of one more stage is the accumulation so far with that
      stage's series appended, its tensors merged in. */
  lemma {:induction false} CollectedSnoc(ss: seq<StageSeries>, s: StageSeries)
    requires forall k :: 0 <= k < |ss| ==> Groups.Valid(ss[k].tensors)
    requires Groups.Valid(s.tensors)
    ensures var before := Collected(ss);
      Collected(ss + [s]) == Accumulated(
        Groups.Merge(before.tensors, s.tensors),
        before.yyStages + [s.strains.yy],
        before.shearXy + s.shearXy,
        before.volStrain + s.strains.vol,
        before.shearStrainXy + s.strains.shearXy,
        before.vonMises + s.vonMises,
        before.meanStress + s.meanStress,
        before.sigmaXx + s.sigma.xx,
        before.sigmaYy + s.sigma.yy,
        before.timeSteps + ToHours(s.timeSteps))
  {
    MergeTensorsSnoc(ss, s);
    YyStagesSnoc(ss, s);
    ConcatColSnoc(ss, s, ShearXyCol);
    ConcatColSnoc(ss, s, VolCol);
    ConcatColSnoc(ss, s, ShearStrainXyCol);
    ConcatColSnoc(ss, s, SigmaXxCol);
    ConcatColSnoc(ss, s, SigmaYyCol);
    ConcatColSnoc(ss, s, TimeCol);
    ConcatItemColSnoc(ss, s, VonMisesCol);
    ConcatItemColSnoc(ss, s, MeanStressCol);
    ToHoursAppend(Concat(ss, TimeCol), s.timeSteps);
  }


  /** The stage loop shared by the model and core collectors (None records
      skipped). */
  method CollectStages(outputs: seq<StageOutput>) returns (r: Result<Accumulated>, log: seq<LogEntry>)
    ensures r.Ok? <==> ReduceAll(outputs, true).Ok?
    ensures r.Err? ==> r.error == ReduceAll(outputs, true).error
    ensures r.Ok? ==> r.value == Collected(ReduceAll(outputs, true).value)
    ensures log == CollectLog(outputs, true)
  {
    log := [];
    var allTensors: Groups.Groups<Matrix> := Groups.Empty();
    var yyStrainStages: seq<seq<real>> := [];
    var allShearStressXy: seq<real> := [];
    var allVolStrain: seq<real> := [];
    var allShearStrainXy: seq<real> := [];
    var allVonMises: seq<Item> := [];
    var allMeanStress: seq<Item> := [];
    var allSigmaXx: seq<real> := [];
    var allSigmaYy: seq<real> := [];
    var allTimeSteps: seq<real> := [];
    ghost var ss: seq<StageSeries> := [];
    var i := 0;
    while i < |outputs|
      invariant 0 <= i <= |outputs|
      invariant ReduceAll(outputs[..i], true) == Ok(ss)
      invariant Accumulated(allTensors, yyStrainStages, allShearStressXy, allVolStrain, allShearStrainXy,
                            allVonMises, allMeanStress, allSigmaXx, allSigmaYy, allTimeSteps) == Collected(ss)
      invariant log == ReadLogs(outputs[..i])
    {
      var stage, stageLog := ReduceStageResults(outputs[i], true);
      if stage.Err? {
        StageRaises(outputs, i, true);
        log := log + stageLog;
        r := Err(stage.error);
        return;
      }
      assert log + stageLog == ReadLogs(outputs[..i + 1]) by {
        ReadLogsSnoc(outputs, i);
      }
      log := log + stageLog;
      var s := stage.value;
      allTensors := Groups.ExtendAll(allTensors, s.tensors);
      allShearStressXy := allShearStressXy + s.shearXy;
      yyStrainStages := yyStrainStages + [s.strains.yy];
      allVolStrain := allVolStrain + s.strains.vol;
      allShearStrainXy := allShearStrainXy + s.strains.shearXy;
      allVonMises := allVonMises + s.vonMises;
      allMeanStress := allMeanStress + s.meanStress;
      allSigmaXx := allSigmaXx + s.sigma.xx;
      allSigmaYy := allSigmaYy + s.sigma.yy;
      allTimeSteps := allTimeSteps + ToHours(s.timeSteps);
      assert Accumulated(allTensors, yyStrainStages, allShearStressXy, allVolStrain, allShearStrainXy,
                         allVonMises, allMeanStress, allSigmaXx, allSigmaYy, allTimeSteps) == Collected(ss + [s]) by {
        CollectedSnoc(ss, s);
      }
      assert ReduceAll(outputs[..i + 1], true) == Ok(ss + [s]) by {
        ReduceAllSnocOk(outputs, i, true, ss, s);
      }
      ss := ss + [s];
      i := i + 1;
    }
    assert outputs[..i] == outputs;
    CollectLogAllRead(outputs, true);
    r := Ok(Accumulated(allTensors, yyStrainStages, allShearStressXy, allVolStrain, allShearStrainXy,
                        allVonMises, allMeanStress, allSigmaXx, allSigmaYy, allTimeSteps));
  }

  /** The dictionary `collect_results` returns: the thirteen keys yy_strain,
      vol_strain, sigma1, sigma3, shear_xy, shear_strain_xy, mean_stress,
      von_mises, cohesion, phi, sigma_xx, sigma_yy and time_steps. */
  datatype Results = Results(
    yyStrain: seq<real>,
    volStrain: seq<real>,
    sigma1: seq<real>,
    sigma3: seq<real>,
    shearXy: seq<real>,
    shearStrainXy: seq<real>,
    meanStress: seq<Item>,
    vonMises: seq<Item>,
    cohesion: Option<real>,
    phi: Option<real>,
    sigmaXx: seq<real>,
    sigmaYy: seq<real>,
    timeSteps: seq<real>)

  /** The dictionary of a successful collection, everything but cohesion
      and phi: the accumulated series, the yy strains stitched across stages,
      and σ1/σ3 of every merged tensor in ascending time order. */
  ghost predicate Collects(outputs: seq<StageOutput>, eigh: Matrix -> (real, real, real), res: Results)
  {
    ReduceAll(outputs, true).Ok? &&
    var acc := Collected(ReduceAll(outputs, true).value);
    var tensors := InKeyOrder(acc.tensors, SortReals(acc.tensors.order));
    res.yyStrain == Stitch(acc.yyStages) &&
    res.volStrain == acc.volStrain &&
    res.sigma1 == Mins(tensors, eigh) &&
    res.sigma3 == Maxs(tensors, eigh) &&
    res.shearXy == acc.shearXy &&
    res.shearStrainXy == acc.shearStrainXy &&
    res.meanStress == acc.meanStress &&
    res.vonMises == acc.vonMises &&
    res.sigmaXx == acc.sigmaXx &&
    res.sigmaYy == acc.sigmaYy &&
    res.timeSteps == acc.timeSteps
  }

  /** model/pipeline/result_collector.py: cohesion and phi are handed in and
      passed through. */
  class ModelResultCollector {
    const outputs: seq<StageOutput>
    const cohesion: Option<real>
    const phi: Option<real>

    constructor (outputs: seq<StageOutput>, cohesion: Option<real>, phi: Option<real>)
      ensures this.outputs == outputs && this.cohesion == cohesion && this.phi == phi
    {
      this.outputs := outputs;
      this.cohesion := cohesion;
      this.phi := phi;
    }

    method CollectResults(eigh: Matrix -> (real, real, real)) returns (r: Result<Results>, log: seq<LogEntry>)
      ensures r.Err? <==> ReduceAll(outputs, true).Err?
      ensures r.Err? ==> r.error == ReduceAll(outputs, true).error
      ensures r.Ok? ==> Collects(outputs, eigh, r.value)
      ensures r.Ok? ==> r.value.cohesion == cohesion && r.value.phi == phi
      ensures log == CollectLog(outputs, true)
    {
      var stages, stageLog := CollectStages(outputs);
      log := stageLog;
      if stages.Err? {
        r := Err(stages.error);
        return;
      }
      var acc := stages.value;
      var allYyStrain := ApplyCumulativeStrainOffset(acc.yyStages);
      var sigma1, sigma3 := CalculatePrincipalStresses(acc.tensors, eigh);
      r := Ok(Results(allYyStrain, acc.volStrain, sigma1, sigma3, acc.shearXy, acc.shearStrainXy,
                      acc.meanStress, acc.vonMises, cohesion, phi, acc.sigmaXx, acc.sigmaYy, acc.timeSteps));
    }
  }

  /** core/pipeline/result_collector.py: cohesion and phi are read from the
      material parameters by the 1-based index pair, after the stage loop. */
  class CoreResultCollector {
    const outputs: seq<StageOutput>
    const materialParameters: seq<real>
    const cohesionPhiIndices: Option<seq<int>>

    constructor (outputs: seq<StageOutput>, materialParameters: seq<real>, cohesionPhiIndices: Option<seq<int>>)
      ensures this.outputs == outputs
      ensures this.materialParameters == materialParameters
      ensures this.cohesionPhiIndices == cohesionPhiIndices
    {
      this.outputs := outputs;
      this.materialParameters := materialParameters;
      this.cohesionPhiIndices := cohesionPhiIndices;
    }

    method CollectResults(eigh: Matrix -> (real, real, real)) returns (r: Result<Results>, log: seq<LogEntry>)
      ensures ReduceAll(outputs, true).Err? ==> r == Err(ReduceAll(outputs, true).error)
      ensures ReduceAll(outputs, true).Ok? ==>
        (r.Ok? <==> GetCohesionPhi(materialParameters, cohesionPhiIndices).Ok?)
      ensures ReduceAll(outputs, true).Ok? && r.Err? ==>
        r.error == GetCohesionPhi(materialParameters, cohesionPhiIndices).error
      ensures r.Ok? ==> Collects(outputs, eigh, r.value)
      ensures r.Ok? ==>
        (r.value.cohesion, r.value.phi) == GetCohesionPhi(materialParameters, cohesionPhiIndices).value
      ensures log == CollectLog(outputs, true)
    {
      var stages, stageLog := CollectStages(outputs);
      log := stageLog;
      if stages.Err? {
        r := Err(stages.error);
        return;
      }
      var acc := stages.value;
      var allYyStrain := ApplyCumulativeStrainOffset(acc.yyStages);
      var sigma1, sigma3 := CalculatePrincipalStresses(acc.tensors, eigh);
      var cohesionPhi :- GetCohesionPhi(materialParameters, cohesionPhiIndices);
      r := Ok(Results(allYyStrain, acc.volStrain, sigma1, sigma3, acc.shearXy, acc.shearStrainXy,
                      acc.meanStress, acc.vonMises, cohesionPhi.0, cohesionPhi.1, acc.sigmaXx, acc.sigmaYy,
                      acc.timeSteps));
    }
  }

  /** A missing result file reduces to empty series and never raises. */
  lemma MissingFileContributesNothing(path: string, skipNull: bool)
    ensures ReduceStage(Missing(path), skipNull) ==
      Ok(StageSeries(Groups.Empty(), [], Strains([], [], []), [], [], SigmaXxYy([], []), []))
  {
  }

  /** Collecting only missing files raises nothing and gives empty series. */
  lemma {:induction false} AllMissingCollectsNothing(outputs: seq<StageOutput>, skipNull: bool)
    requires forall k :: 0 <= k < |outputs| ==> outputs[k].Missing?
    ensures ReduceAll(outputs, skipNull).Ok?
    ensures forall c :: Concat(ReduceAll(outputs, skipNull).value, c) == []
    ensures forall c :: ConcatItems(ReduceAll(outputs, skipNull).value, c) == []
  {
    if outputs != [] {
      var init := outputs[..|outputs| - 1];
      AllMissingCollectsNothing(init, skipNull);
      var path := outputs[|outputs| - 1].path;
      MissingFileContributesNothing(path, skipNull);
      var before := ReduceAll(init, skipNull).value;
      var last := ReduceStage(Missing(path), skipNull).value;
      assert ReduceAll(outputs, skipNull).value == before + [last];
      ConcatSnoc(before, last);
    }
  }

  // ------------------------------------------------------- generic runner

  /** The ten-tuple of `GenericTestRunner.run`, in its order. */
  datatype RunnerOutput = RunnerOutput(
    tensors: Groups.Groups<Matrix>,
    yyStrain: seq<real>,
    volStrain: seq<real>,
    vonMises: seq<Item>,
    meanStress: seq<Item>,
    shearXy: seq<real>,
    shearStrainXy: seq<real>,
    sigmaXx: seq<real>,
    sigmaYy: seq<real>,
    timeSteps: seq<real>)

  /** The generic runner's accumulation over reduced stages: the collectors'
      series, except that the yy strains are stitched as they come and the
      time steps stay in seconds. */
  function RunnerCollected(ss: seq<StageSeries>): (out: RunnerOutput)
    requires forall k :: 0 <= k < |ss| ==> Groups.Valid(ss[k].tensors)
    ensures Groups.Valid(out.tensors)
  {
    RunnerOutput(
      MergeTensors(ss),
      Stitch(YyStages(ss)),
      Concat(ss, VolCol),
      ConcatItems(ss, VonMisesCol),
      ConcatItems(ss, MeanStressCol),
      Concat(ss, ShearXyCol),
      Concat(ss, ShearStrainXyCol),
      Concat(ss, SigmaXxCol),
      Concat(ss, SigmaYyCol),
      Concat(ss, TimeCol))
  }

  /** One more stage: its yy strains appended shifted by the last stitched
      value (0.0 while there is none), every other series appended. */
  lemma {:induction false} RunnerCollectedSnoc(ss: seq<StageSeries>, s: StageSeries)
    requires forall k :: 0 <= k < |ss| ==> Groups.Valid(ss[k].tensors)
    requires Groups.Valid(s.tensors)
    ensures var before := RunnerCollected(ss);
      RunnerCollected(ss + [s]) == RunnerOutput(
        Groups.Merge(before.tensors, s.tensors),
        before.yyStrain + Shift(s.strains.yy, LastOr(before.yyStrain, 0.0)),
        before.volStrain + s.strains.vol,
        before.vonMises + s.vonMises,
        before.meanStress + s.meanStress,
        before.shearXy + s.shearXy,
        before.shearStrainXy + s.strains.shearXy,
        before.sigmaXx + s.sigma.xx,
        before.sigmaYy + s.sigma.yy,
        before.timeSteps + s.timeSteps)
  {
    YyStagesSnoc(ss, s);
    StitchSnoc(YyStages(ss), s.strains.yy);
    MergeTensorsSnoc(ss, s);
    ConcatColSnoc(ss, s, ShearXyCol);
    ConcatColSnoc(ss, s, VolCol);
    ConcatColSnoc(ss, s, ShearStrainXyCol);
    ConcatColSnoc(ss, s, SigmaXxCol);
    ConcatColSnoc(ss, s, SigmaYyCol);
    ConcatColSnoc(ss, s, TimeCol);
    ConcatItemColSnoc(ss, s, VonMisesCol);
    ConcatItemColSnoc(ss, s, MeanStressCol);
  }


  /** The runner's inline offset step: a stage's yy strains are shifted by
      the last collected value once something has been collected, and that
      value moves on to the stage's last shifted strain. */
  method ShiftStage(yy: seq<real>, collected: seq<real>, cumulative: real) returns (adjusted: seq<real>, next: real)
    requires cumulative == LastOr(collected, 0.0)
    ensures adjusted == Shift(yy, LastOr(collected, 0.0))
    ensures next == LastOr(collected + adjusted, 0.0)
  {
    adjusted := yy;
    if collected != [] {
      adjusted := Shift(yy, cumulative);
    } else {
      assert Shift(yy, 0.0) == yy;
    }
    next := cumulative;
    if adjusted != [] {
      next := adjusted[|adjusted| - 1];
    }
    LastOrAppend(collected, adjusted, 0.0);
  }

  /** The post-processing loop of `GenericTestRunner.run`: None items are not
      skipped by the tensor, shear and strain extractors, the yy strains are
      shifted while they are collected (only once something has been
      collected), and the time steps stay in seconds.  The stitched series is
      the collectors' one. */
  method RunnerPostProcess(outputs: seq<StageOutput>) returns (r: Result<RunnerOutput>, log: seq<LogEntry>)
    ensures r.Ok? <==> ReduceAll(outputs, false).Ok?
    ensures r.Err? ==> r.error == ReduceAll(outputs, false).error
    ensures r.Ok? ==> r.value == RunnerCollected(ReduceAll(outputs, false).value)
    ensures log == CollectLog(outputs, false)
  {
    log := [];
    var allTensors: Groups.Groups<Matrix> := Groups.Empty();
    var allShearStressXy: seq<real> := [];
    var allYyStrain: seq<real> := [];
    var allVolStrain: seq<real> := [];
    var allShearStrainXy: seq<real> := [];
    var allVonMises: seq<Item> := [];
    var allMeanStress: seq<Item> := [];
    var allSigmaXx: seq<real> := [];
    var allSigmaYy: seq<real> := [];
    var allTimeSteps: seq<real> := [];
    var cumulativeYyStrain := 0.0;
    ghost var ss: seq<StageSeries> := [];
    var i := 0;
    assert ReduceAll(outputs[..0], false) == Ok([]) by {
      assert outputs[..0] == [];
    }
    while i < |outputs|
      invariant 0 <= i <= |outputs|
      invariant ReduceAll(outputs[..i], false) == Ok(ss)
      invariant RunnerOutput(allTensors, allYyStrain, allVolStrain, allVonMises, allMeanStress, allShearStressXy,
                             allShearStrainXy, allSigmaXx, allSigmaYy, allTimeSteps) == RunnerCollected(ss)
      invariant cumulativeYyStrain == LastOr(allYyStrain, 0.0)
      invariant log == ReadLogs(outputs[..i])
    {
      var stage, stageLog := ReduceStageResults(outputs[i], false);
      if stage.Err? {
        StageRaises(outputs, i, false);
        log := log + stageLog;
        r := Err(stage.error);
        return;
      }
      assert log + stageLog == ReadLogs(outputs[..i + 1]) by {
        ReadLogsSnoc(outputs, i);
      }
      log := log + stageLog;
      var s := stage.value;
      var yyStrain, nextCumulative := ShiftStage(s.strains.yy, allYyStrain, cumulativeYyStrain);
      cumulativeYyStrain := nextCumulative;
      allTensors := Groups.ExtendAll(allTensors, s.tensors);
      allShearStressXy := allShearStressXy + s.shearXy;
      allYyStrain := allYyStrain + yyStrain;
      allVolStrain := allVolStrain + s.strains.vol;
      allShearStrainXy := allShearStrainXy + s.strains.shearXy;
      allVonMises := allVonMises + s.vonMises;
      allMeanStress := allMeanStress + s.meanStress;
      allSigmaXx := allSigmaXx + s.sigma.xx;
      allSigmaYy := allSigmaYy + s.sigma.yy;
      allTimeSteps := allTimeSteps + s.timeSteps;
      assert RunnerOutput(allTensors, allYyStrain, allVolStrain, allVonMises, allMeanStress, allShearStressXy,
                          allShearStrainXy, allSigmaXx, allSigmaYy, allTimeSteps) == RunnerCollected(ss + [s]) by {
        RunnerCollectedSnoc(ss, s);
      }
      assert ReduceAll(outputs[..i + 1], false) == Ok(ss + [s]) by {
        ReduceAllSnocOk(outputs, i, false, ss, s);
      }
      ss := ss + [s];
      i := i + 1;
    }
    assert outputs[..i] == outputs;
    CollectLogAllRead(outputs, false);
    r := Ok(RunnerOutput(allTensors, allYyStrain, allVolStrain, allVonMises, allMeanStress, allShearStressXy,
                         allShearStrainXy, allSigmaXx, allSigmaYy, allTimeSteps));
  }
}
