/** What the project-parameter editors do to a decoded parameter file,
    stated on values: the numeric-property substitution on the file's tokens,
    the nested load-process update, the staged timings, the appended stage
    and the per-stage displacement tables. The editor classes perform these
    edits step by step and are proved to agree with them. */
module ProjectParameters {
  import opened Common
  import opened Json

  // ------------------------------------------------------ update_property

  /** `"name": <number>` starts at token `i`. */
  predicate PropertyAt(ts: seq<Tok>, name: string, i: nat)
  {
    i + 3 <= |ts| && ts[i] == TStr(name) && ts[i + 1] == Colon && ts[i + 2].TNum?
  }

  /** `re.subn` of the property pattern: every `"name": <number>` gets the
      new number, and the count of replacements comes with the new tokens. */
  function SubstProperty(ts: seq<Tok>, name: string, v: real): (r: (seq<Tok>, nat))
    ensures |r.0| == |ts|
    decreases |ts|
  {
    if ts == [] then ([], 0)
    else if PropertyAt(ts, name, 0) then
      var (rest, n) := SubstProperty(ts[3..], name, v);
      ([ts[0], ts[1], TNum(v)] + rest, n + 1)
    else
      var (rest, n) := SubstProperty(ts[1..], name, v);
      ([ts[0]] + rest, n)
  }

  /** Reference count: the positions where a property occurrence starts. */
  function PropertyCount(ts: seq<Tok>, name: string): nat
  {
    if ts == [] then 0 else (if PropertyAt(ts, name, 0) then 1 else 0) + PropertyCount(ts[1..], name)
  }

  /** Reference result: each token that is the number of an occurrence is
      the new number, every other token is kept. */
  function PropertyRewritten(ts: seq<Tok>, name: string, v: real): seq<Tok>
  {
    seq(|ts|, k requires 0 <= k < |ts| => if k >= 2 && PropertyAt(ts, name, k - 2) then TNum(v) else ts[k])
  }

  lemma PropertyAtTail(ts: seq<Tok>, name: string, i: nat)
    requires ts != []
    ensures PropertyAt(ts[1..], name, i) <==> PropertyAt(ts, name, i + 1)
  {
  }

  lemma {:induction false} SubstPropertyPointwise(ts: seq<Tok>, name: string, v: real)
    ensures SubstProperty(ts, name, v).0 == PropertyRewritten(ts, name, v)
    ensures SubstProperty(ts, name, v).1 == PropertyCount(ts, name)
    decreases |ts|
  {
    if ts != [] {
      var out := SubstProperty(ts, name, v).0;
      var want := PropertyRewritten(ts, name, v);
      if PropertyAt(ts, name, 0) {
        var tail := ts[3..];
        SubstPropertyPointwise(tail, name, v);
        var wantTail := PropertyRewritten(tail, name, v);
        assert out == [ts[0], ts[1], TNum(v)] + wantTail;
        forall k | 0 <= k < |ts|
          ensures out[k] == want[k]
        {
          if k >= 5 {
            assert PropertyAt(tail, name, k - 5) <==> PropertyAt(ts, name, k - 2) by {
              if k - 2 + 3 <= |ts| {
                assert tail[k - 5] == ts[k - 2] && tail[k - 4] == ts[k - 1] && tail[k - 3] == ts[k];
              }
            }
          } else if k >= 3 {
            assert !PropertyAt(ts, name, k - 2);
          }
        }
        assert !PropertyAt(ts[1..], name, 0) && !PropertyAt(ts[2..], name, 0);
        assert ts[1..][1..] == ts[2..] && ts[2..][1..] == tail;
        assert PropertyCount(ts[1..], name) == PropertyCount(ts[2..], name);
        assert PropertyCount(ts[2..], name) == PropertyCount(tail, name);
      } else {
        var tail := ts[1..];
        SubstPropertyPointwise(tail, name, v);
        forall k | 0 <= k < |ts|
          ensures out[k] == want[k]
        {
          if k >= 3 {
            PropertyAtTail(ts, name, k - 3);
          }
        }
      }
    }
  }

  lemma {:induction false} PropertyCountZero(ts: seq<Tok>, name: string)
    ensures PropertyCount(ts, name) == 0 <==> forall i :: !PropertyAt(ts, name, i)
    decreases |ts|
  {
    if ts != [] {
      PropertyCountZero(ts[1..], name);
      forall i: nat
        ensures PropertyAt(ts[1..], name, i) <==> PropertyAt(ts, name, i + 1)
      {
        PropertyAtTail(ts, name, i);
      }
      if PropertyCount(ts, name) == 0 {
        forall i: nat
          ensures !PropertyAt(ts, name, i)
        {
          if i > 0 {
            assert !PropertyAt(ts[1..], name, i - 1);
          }
        }
      } else if !PropertyAt(ts, name, 0) {
        var i: nat :| PropertyAt(ts[1..], name, i);
        assert PropertyAt(ts, name, i + 1);
      }
    }
  }

  /** No occurrence means nothing is replaced and the tokens are unchanged;
      otherwise exactly the occurrences' numbers change. */
  lemma {:induction false} SubstPropertyNone(ts: seq<Tok>, name: string, v: real)
    ensures SubstProperty(ts, name, v).1 == 0 <==> forall i :: !PropertyAt(ts, name, i)
    ensures SubstProperty(ts, name, v).1 == 0 ==> SubstProperty(ts, name, v).0 == ts
  {
    SubstPropertyPointwise(ts, name, v);
    PropertyCountZero(ts, name);
  }

  /** The warning `update_property` logs for a count, if any. */
  function PropertyWarnings(name: string, count: nat): (w: seq<LogEntry>)
    ensures |w| == if count == 1 then 0 else 1
  {
    if count == 0 then [Message(WarnLevel, "Could not find '" + name + "' to update.")]
    else if count > 1 then [Message(WarnLevel, "Multiple occurrences of '" + name + "' found. Updated all " + NatToString(count) + ".")]
    else []
  }

  // -------------------------------------------------- update_nested_value

  const LOADS_PATH: seq<Step> := [Key("processes"), Key("loads_process_list")]

  /** `data.get("processes", {}).get("loads_process_list", [])`, iterated. */
  function LoadsProcesses(data: Json): Result<LoadsView>
  {
    var processes :- Get(data, "processes", JObj([]));
    var list :- Get(processes, "loads_process_list", JArr([]));
    var items :- Iterate(list);
    Ok(LoadsView(list, items))
  }

  /** The load process list and the processes iterated over. */
  datatype LoadsView = LoadsView(list: Json, items: seq<Json>)

  /** `process.get("python_module") == module_name and key in process.get("Parameters", {})`. */
  function ProcessMatches(p: Json, moduleName: string, key: string): Result<bool>
  {
    var m :- Get(p, "python_module", JNull);
    if m != JStr(moduleName) then Ok(false)
    else
      var params :- Get(p, "Parameters", JObj([]));
      Contains(params, key)
  }

  /** The test of one process, as a function value. */
  function MatchTest(moduleName: string, key: string): Json -> Result<bool>
  {
    p => ProcessMatches(p, moduleName, key)
  }

  /** The loop's outcome from position `i` on: the first process that passes
      `test`, none, or the error a test raised. */
  function FirstMatchFrom(test: Json -> Result<bool>, items: seq<Json>, i: nat): (r: Result<Option<nat>>)
    requires i <= |items|
    ensures r.Ok? && r.value.Some? ==> i <= r.value.value < |items| && test(items[r.value.value]) == Ok(true)
    decreases |items| - i
  {
    if i == |items| then Ok(None)
    else
      match test(items[i])
      case Err(e) => Err(e)
      case Ok(b) => if b then Ok(Some(i)) else FirstMatchFrom(test, items, i + 1)
  }

  /** Nothing matches exactly when every test from `i` on says no. */
  lemma {:induction false} FirstMatchNone(test: Json -> Result<bool>, items: seq<Json>, i: nat)
    requires i <= |items|
    ensures FirstMatchFrom(test, items, i) == Ok(None) <==>
      forall j :: i <= j < |items| ==> test(items[j]) == Ok(false)
    decreases |items| - i
  {
    if i < |items| {
      FirstMatchNone(test, items, i + 1);
    }
  }

  /** The match found is the first: every earlier process was tested and did
      not match. */
  lemma {:induction false} FirstMatchFirst(test: Json -> Result<bool>, items: seq<Json>, i: nat)
    requires i <= |items|
    requires FirstMatchFrom(test, items, i).Ok? && FirstMatchFrom(test, items, i).value.Some?
    ensures forall j :: i <= j < FirstMatchFrom(test, items, i).value.value ==> test(items[j]) == Ok(false)
    decreases |items| - i
  {
    if test(items[i]) == Ok(false) {
      FirstMatchFirst(test, items, i + 1);
    }
  }

  /** The parameters of a process with `key` set: `process["Parameters"][key] = new_list`. */
  function ParameterPath(key: string): seq<Step>
  {
    [Key("Parameters"), Key(key)]
  }

  /** The edited data of `update_nested_value`: Ok(None) when no process
      matched, Err when decoding or a test raised. */
  function NestedUpdate(text: seq<Tok>, moduleName: string, key: string, v: Json): Result<Option<Json>>
  {
    var data :- Loads(text);
    var lp :- LoadsProcesses(data);
    var items := lp.items;
    var found :- FirstMatchFrom(MatchTest(moduleName, key), items, 0);
    if found.None? then Ok(None)
    else
      var p2 :- SetPath(items[found.value], ParameterPath(key), v);
      var d2 :- SetPath(data, LOADS_PATH, JArr(items[found.value := p2]));
      Ok(Some(d2))
  }

  /** What the edited data holds: the first matching process has the new
      value under its parameters and every other process is as before. */
  lemma {:induction false} NestedUpdateFound(text: seq<Tok>, moduleName: string, key: string, v: Json)
    requires NestedUpdate(text, moduleName, key, v).Ok? && NestedUpdate(text, moduleName, key, v).value.Some?
    ensures Loads(text).Ok? && LoadsProcesses(Loads(text).value).Ok?
    ensures var items := LoadsProcesses(Loads(text).value).value.items;
      var f := FirstMatchFrom(MatchTest(moduleName, key), items, 0).value.value;
      f < |items| &&
      (forall j :: 0 <= j < f ==> ProcessMatches(items[j], moduleName, key) == Ok(false)) &&
      ProcessMatches(items[f], moduleName, key) == Ok(true) &&
      SetPath(items[f], ParameterPath(key), v).Ok? &&
      GetPath(NestedUpdate(text, moduleName, key, v).value.value, LOADS_PATH) ==
        Ok(JArr(items[f := SetPath(items[f], ParameterPath(key), v).value])) &&
      GetPath(SetPath(items[f], ParameterPath(key), v).value, ParameterPath(key)) == Ok(v)
  {
    var data := Loads(text).value;
    var items := LoadsProcesses(data).value.items;
    var f := FirstMatchFrom(MatchTest(moduleName, key), items, 0).value.value;
    FirstMatchFirst(MatchTest(moduleName, key), items, 0);
    var p2 := SetPath(items[f], ParameterPath(key), v).value;
    GetSetSame(items[f], ParameterPath(key), v);
    GetSetSame(data, LOADS_PATH, JArr(items[f := p2]));
  }

  /** Everything outside `processes` is left as it was. */
  lemma {:induction false} NestedUpdateElsewhere(text: seq<Tok>, moduleName: string, key: string, v: Json, q: seq<Step>)
    requires NestedUpdate(text, moduleName, key, v).Ok? && NestedUpdate(text, moduleName, key, v).value.Some?
    requires q != [] && q[0].Key? && q[0].name != "processes"
    ensures Loads(text).Ok?
    ensures GetPath(NestedUpdate(text, moduleName, key, v).value.value, q) == GetPath(Loads(text).value, q)
  {
    var data := Loads(text).value;
    var items := LoadsProcesses(data).value.items;
    var f := FirstMatchFrom(MatchTest(moduleName, key), items, 0).value.value;
    var p2 := SetPath(items[f], ParameterPath(key), v).value;
    assert Diverge(LOADS_PATH, q, 0);
    GetSetOther(data, LOADS_PATH, q, 0, JArr(items[f := p2]));
  }

  /** The written text decodes to the edited data. */
  lemma {:induction false} NestedUpdateReadsBack(text: seq<Tok>, moduleName: string, key: string, v: Json)
    requires WellFormed(v)
    requires NestedUpdate(text, moduleName, key, v).Ok? && NestedUpdate(text, moduleName, key, v).value.Some?
    ensures Loads(Dump(NestedUpdate(text, moduleName, key, v).value.value)) == Ok(NestedUpdate(text, moduleName, key, v).value.value)
  {
    var data := Loads(text).value;
    var items := LoadsProcesses(data).value.items;
    var f := FirstMatchFrom(MatchTest(moduleName, key), items, 0).value.value;
    var p2 := SetPath(items[f], ParameterPath(key), v).value;
    ItemsOfWellFormed(data);
    SetPathWellFormed(items[f], ParameterPath(key), v);
    var list2 := JArr(items[f := p2]);
    assert WellFormed(list2) by {
      forall i | 0 <= i < |list2.items|
        ensures WellFormed(list2.items[i])
      {
        if i != f {
          assert list2.items[i] == items[i];
        }
      }
    }
    SetPathWellFormed(data, LOADS_PATH, list2);
    LoadsDump(NestedUpdate(text, moduleName, key, v).value.value);
  }

  /** The processes iterated over belong to decoded data and are themselves
      decoded values. */
  lemma {:induction false} ItemsOfWellFormed(data: Json)
    requires WellFormed(data) && LoadsProcesses(data).Ok?
    ensures forall i :: 0 <= i < |LoadsProcesses(data).value.items| ==> WellFormed(LoadsProcesses(data).value.items[i])
  {
    var processes := Get(data, "processes", JObj([])).value;
    if data.JObj? && Lookup(data.members, "processes").Some? {
      LookupWellFormed(data.members, "processes");
    }
    var list := Get(processes, "loads_process_list", JArr([])).value;
    if processes.JObj? && Lookup(processes.members, "loads_process_list").Some? {
      LookupWellFormed(processes.members, "loads_process_list");
    }
    assert WellFormed(list);
  }

  // ------------------------------------------------------- _load_json

  /** `_load_json`: a malformed file raises RuntimeError. */
  function LoadJson(text: seq<Tok>): (r: Result<Json>)
    ensures r.Ok? <==> Loads(text).Ok?
    ensures r.Ok? ==> r == Loads(text) && WellFormed(r.value)
    ensures r.Err? ==> r.error == RuntimeError
  {
    match Loads(text)
    case Ok(data) => Ok(data)
    case Err(_) => Err(RuntimeError)
  }

  /** The parsed file and its "stages" object. */
  datatype StagesView = StagesView(data: Json, stages: seq<Member>)

  /** `data["stages"]` and its keys. */
  function StagesOf(text: seq<Tok>): (r: Result<StagesView>)
    ensures r.Ok? ==> r.value.data.JObj? && Index(r.value.data, "stages") == Ok(JObj(r.value.stages))
    ensures r.Ok? ==> WellFormed(r.value.data) && Distinct(Keys(r.value.stages)) && MembersWellFormed(r.value.stages)
  {
    var data :- LoadJson(text);
    var sv :- Index(data, "stages");
    var names :- KeyList(sv);
    LookupWellFormed(data.members, "stages");
    Ok(StagesView(data, sv.members))
  }

  predicate HasKey(j: Json, k: string)
  {
    j.JObj? && k in Keys(j.members)
  }

  lemma {:induction false} SetDefaultFacts(d: Json, k: string)
    requires SetDefault(d, k).Ok?
    ensures SetDefault(d, k).value.0.JObj?
    ensures Index(SetDefault(d, k).value.0, k) == Ok(SetDefault(d, k).value.1)
    ensures forall k2 :: k2 != k ==> Lookup(SetDefault(d, k).value.0.members, k2) == Lookup(d.members, k2)
  {
    if k !in Keys(d.members) {
      AssignFresh(d.members, k, JObj([]));
      forall k2 {
        LookupAssign(d.members, k, JObj([]), k2);
      }
    }
  }

  // ---------------------------------------------------- update_stage_timings

  const START_PATH: seq<Step> := [Key("stage_settings"), Key("problem_data"), Key("start_time")]
  const END_PATH: seq<Step> := [Key("stage_settings"), Key("problem_data"), Key("end_time")]
  const TIME_STEP_PATH: seq<Step> := [Key("stage_settings"), Key("solver_settings"), Key("time_stepping"), Key("time_step")]

  /** `settings.setdefault("problem_data", {})` with its start and end time set. */
  function TimeProblemData(settings: Json, start: real, end: real): Result<Json>
  {
    var (s1, pd) :- SetDefault(settings, "problem_data");
    var pd1 :- Store(pd, "start_time", JNum(start));
    var s2 := Replace(s1, Key("problem_data"), pd1);
    SetPath(s2, [Key("problem_data"), Key("end_time")], JNum(end))
  }

  lemma {:induction false} TimeProblemDataSets(settings: Json, start: real, end: real)
    requires TimeProblemData(settings, start, end).Ok?
    ensures TimeProblemData(settings, start, end).value.JObj?
    ensures GetPath(TimeProblemData(settings, start, end).value, [Key("problem_data"), Key("start_time")]) == Ok(JNum(start))
    ensures GetPath(TimeProblemData(settings, start, end).value, [Key("problem_data"), Key("end_time")]) == Ok(JNum(end))
  {
    var sd := SetDefault(settings, "problem_data").value;
    var pd1 := Store(sd.1, "start_time", JNum(start)).value;
    var s2 := Replace(sd.0, Key("problem_data"), pd1);
    var endPath := [Key("problem_data"), Key("end_time")];
    var startPath := [Key("problem_data"), Key("start_time")];
    assert TimeProblemData(settings, start, end) == SetPath(s2, endPath, JNum(end));
    assert GetPath(s2, startPath) == Ok(JNum(start)) by {
      SetDefaultFacts(settings, "problem_data");
      IndexReplace(sd.0, Key("problem_data"), pd1);
      LookupAssign(sd.1.members, "start_time", JNum(start), "start_time");
      assert startPath[1..] == [Key("start_time")];
    }
    assert Diverge(endPath, startPath, 1);
    GetSetOther(s2, endPath, startPath, 1, JNum(end));
    GetSetSame(s2, endPath, JNum(end));
  }

  /** `settings.setdefault("solver_settings", {}).setdefault("time_stepping", {})`
      with its time step set. */
  function TimeSolver(s3: Json, dt: real): Result<Json>
  {
    var (s4, solver) :- SetDefault(s3, "solver_settings");
    var (solver1, stepping) :- SetDefault(solver, "time_stepping");
    var stepping1 :- Store(stepping, "time_step", JNum(dt));
    Ok(Replace(s4, Key("solver_settings"), Replace(solver1, Key("time_stepping"), stepping1)))
  }

  lemma {:induction false} TimeSolverSets(s3: Json, dt: real)
    requires TimeSolver(s3, dt).Ok?
    ensures TimeSolver(s3, dt).value.JObj?
    ensures GetPath(TimeSolver(s3, dt).value, [Key("solver_settings"), Key("time_stepping"), Key("time_step")]) == Ok(JNum(dt))
    ensures Index(TimeSolver(s3, dt).value, "problem_data") == Index(s3, "problem_data")
  {
    var (s4, solver) := SetDefault(s3, "solver_settings").value;
    SetDefaultFacts(s3, "solver_settings");
    var (solver1, stepping) := SetDefault(solver, "time_stepping").value;
    SetDefaultFacts(solver, "time_stepping");
    var stepping1 := Store(stepping, "time_step", JNum(dt)).value;
    var solver2 := Replace(solver1, Key("time_stepping"), stepping1);
    var path := [Key("solver_settings"), Key("time_stepping"), Key("time_step")];
    IndexReplace(s4, Key("solver_settings"), solver2);
    IndexReplace(solver1, Key("time_stepping"), stepping1);
    LookupAssign(stepping.members, "time_step", JNum(dt), "time_step");
    LookupAssign(s4.members, "solver_settings", solver2, "problem_data");
    assert path[1..] == [Key("time_stepping"), Key("time_step")];
    assert path[1..][1..] == [Key("time_step")];
  }

  /** `x / steps` for a float `x`. */
  function Per(x: real, steps: int): real
    requires steps != 0
  {
    x / steps as real
  }

  /** `(end - start) / steps`. */
  function TimeStep(start: real, end: real, steps: int): real
    requires steps != 0
  {
    Per(end - start, steps)
  }

  /** One iteration of the timing loop on one stage: the timed stage and its
      time step. `stage.get("stage_settings", {})` hands out a fresh dictionary
      when the stage has no settings, so such a stage keeps its old values. */
  function TimeStage(stage: Json, start: real, end: real, steps: int): Result<(Json, real)>
  {
    var settings :- Get(stage, "stage_settings", JObj([]));
    var s3 :- TimeProblemData(settings, start, end);
    if steps == 0 then Err(ZeroDivisionError)
    else
      var dt := TimeStep(start, end, steps);
      var s5 :- TimeSolver(s3, dt);
      Ok((if HasKey(stage, "stage_settings") then Replace(stage, Key("stage_settings"), s5) else stage, dt))
  }

  /** A stage with settings ends up starting at `start`, ending at `end`,
      with time step (end − start) / steps. */
  lemma {:induction false} TimeStageSets(stage: Json, start: real, end: real, steps: int)
    requires TimeStage(stage, start, end, steps).Ok?
    requires HasKey(stage, "stage_settings")
    ensures steps != 0 && TimeStage(stage, start, end, steps).value.1 == TimeStep(start, end, steps)
    ensures GetPath(TimeStage(stage, start, end, steps).value.0, START_PATH) == Ok(JNum(start))
    ensures GetPath(TimeStage(stage, start, end, steps).value.0, END_PATH) == Ok(JNum(end))
    ensures GetPath(TimeStage(stage, start, end, steps).value.0, TIME_STEP_PATH) == Ok(JNum(TimeStep(start, end, steps)))
  {
    var settings := Get(stage, "stage_settings", JObj([])).value;
    var s3 := TimeProblemData(settings, start, end).value;
    TimeProblemDataSets(settings, start, end);
    var dt := TimeStep(start, end, steps);
    var s5 := TimeSolver(s3, dt).value;
    TimeSolverSets(s3, dt);
    var st := Replace(stage, Key("stage_settings"), s5);
    IndexReplace(stage, Key("stage_settings"), s5);
    assert START_PATH[1..] == [Key("problem_data"), Key("start_time")];
    assert END_PATH[1..] == [Key("problem_data"), Key("end_time")];
    assert TIME_STEP_PATH[1..] == [Key("solver_settings"), Key("time_stepping"), Key("time_step")];
  }

  /** A stage without settings is left unchanged: the values are written into
      a dictionary that nothing keeps. */
  lemma TimeStageWithoutSettings(stage: Json, start: real, end: real, steps: int)
    requires TimeStage(stage, start, end, steps).Ok?
    requires !HasKey(stage, "stage_settings")
    ensures TimeStage(stage, start, end, steps).value.0 == stage
  {
  }

  /** No steps make the division raise. */
  lemma TimeStageZeroSteps(stage: Json, start: real, end: real)
    ensures TimeStage(stage, start, end, 0).Err?
  {
  }

  /** The start of stage `k`: the given start for the first, the previous
      end time for the others. */
  function StartOf(k: nat, start: real, endTimes: seq<real>): real
    requires k <= |endTimes|
  {
    if k == 0 then start else endTimes[k - 1]
  }

  /** The stages after the timing loop, the info lines it logged and the
      exception that stopped it. */
  datatype Progress = Progress(stages: seq<Member>, log: seq<LogEntry>, failure: Option<Error>)

  /** One iteration of the timing loop: a stage, its start, end time and
      step count to the timed stage and its time step. */
  type StageStep = (Json, real, real, int) -> Result<(Json, real)>

  /** The first `n` iterations of the strict zip, each applying `step`. */
  function Retimed(step: StageStep, ms: seq<Member>, endTimes: seq<real>, stepCounts: seq<int>, start: real, n: nat): (p: Progress)
    requires n <= |ms| && n <= |endTimes| && n <= |stepCounts|
    ensures |p.stages| == |ms|
  {
    if n == 0 then Progress(ms, [], None)
    else
      var p := Retimed(step, ms, endTimes, stepCounts, start, n - 1);
      if p.failure.Some? then p
      else
        var k := n - 1;
        var r := Attempt(step, ms, endTimes, stepCounts, start, k);
        if r.Err? then Progress(p.stages, p.log, Some(r.error))
        else
          Progress(p.stages[k := Member(ms[k].key, r.value.0)],
                   p.log + [StageTimed(ms[k].key, StartOf(k, start, endTimes), endTimes[k], r.value.1)], None)
  }

  /** The loop keeps every stage name in its place. */
  lemma {:induction false} RetimedKeys(step: StageStep, ms: seq<Member>, endTimes: seq<real>, stepCounts: seq<int>, start: real, n: nat)
    requires n <= |ms| && n <= |endTimes| && n <= |stepCounts|
    ensures Keys(Retimed(step, ms, endTimes, stepCounts, start, n).stages) == Keys(ms)
  {
    if n > 0 {
      RetimedKeys(step, ms, endTimes, stepCounts, start, n - 1);
      var p := Retimed(step, ms, endTimes, stepCounts, start, n - 1);
      assert Keys(p.stages)[n - 1] == ms[n - 1].key;
    }
  }

  /** The iteration for stage `k`. */
  function Attempt(step: StageStep, ms: seq<Member>, endTimes: seq<real>, stepCounts: seq<int>, start: real, k: nat): Result<(Json, real)>
    requires k < |ms| && k < |endTimes| && k < |stepCounts|
  {
    step(ms[k].value, StartOf(k, start, endTimes), endTimes[k], stepCounts[k])
  }

  /** When the loop ran through, stage `k < n` is the timed stage, the later
      ones are untouched, and one info line was logged per stage. */
  lemma {:induction false} RetimedStages(step: StageStep, ms: seq<Member>, endTimes: seq<real>, stepCounts: seq<int>, start: real, n: nat)
    requires n <= |ms| && n <= |endTimes| && n <= |stepCounts|
    requires Retimed(step, ms, endTimes, stepCounts, start, n).failure.None?
    ensures |Retimed(step, ms, endTimes, stepCounts, start, n).log| == n
    ensures forall k :: 0 <= k < n ==>
      Attempt(step, ms, endTimes, stepCounts, start, k).Ok? &&
      Retimed(step, ms, endTimes, stepCounts, start, n).stages[k] ==
        Member(ms[k].key, Attempt(step, ms, endTimes, stepCounts, start, k).value.0)
    ensures forall k :: n <= k < |ms| ==> Retimed(step, ms, endTimes, stepCounts, start, n).stages[k] == ms[k]
  {
    if n > 0 {
      var p := Retimed(step, ms, endTimes, stepCounts, start, n - 1);
      RetimedStages(step, ms, endTimes, stepCounts, start, n - 1);
      var r := Attempt(step, ms, endTimes, stepCounts, start, n - 1);
      assert r.Ok?;
      assert Retimed(step, ms, endTimes, stepCounts, start, n).stages == p.stages[n - 1 := Member(ms[n - 1].key, r.value.0)];
    }
  }

  /** A stage whose iteration raises stops the loop. */
  lemma {:induction false} RetimedFails(step: StageStep, ms: seq<Member>, endTimes: seq<real>, stepCounts: seq<int>, start: real, n: nat, k: nat)
    requires k < n <= |ms| && n <= |endTimes| && n <= |stepCounts|
    requires Attempt(step, ms, endTimes, stepCounts, start, k).Err?
    ensures Retimed(step, ms, endTimes, stepCounts, start, n).failure.Some?
  {
    if k < n - 1 {
      RetimedFails(step, ms, endTimes, stepCounts, start, n - 1, k);
    } else if Retimed(step, ms, endTimes, stepCounts, start, n - 1).failure.None? {
      RetimedStages(step, ms, endTimes, stepCounts, start, n - 1);
    }
  }

  /** One more iteration that succeeds. */
  lemma RetimedStep(step: StageStep, ms: seq<Member>, endTimes: seq<real>, stepCounts: seq<int>, start: real, k: nat)
    requires k < |ms| && k < |endTimes| && k < |stepCounts|
    requires Retimed(step, ms, endTimes, stepCounts, start, k).failure.None?
    requires Attempt(step, ms, endTimes, stepCounts, start, k).Ok?
    ensures var p := Retimed(step, ms, endTimes, stepCounts, start, k);
      var a := Attempt(step, ms, endTimes, stepCounts, start, k).value;
      Retimed(step, ms, endTimes, stepCounts, start, k + 1) ==
        Progress(p.stages[k := Member(ms[k].key, a.0)],
                 p.log + [StageTimed(ms[k].key, StartOf(k, start, endTimes), endTimes[k], a.1)], None)
  {
  }

  /** The iteration that raises is the last: the loop ends there with what
      it had done and logged before. */
  lemma {:induction false} RetimedStopsAt(step: StageStep, ms: seq<Member>, endTimes: seq<real>, stepCounts: seq<int>, start: real, n: nat, k: nat)
    requires k < n <= |ms| && n <= |endTimes| && n <= |stepCounts|
    requires Retimed(step, ms, endTimes, stepCounts, start, k).failure.None?
    requires Attempt(step, ms, endTimes, stepCounts, start, k).Err?
    ensures Retimed(step, ms, endTimes, stepCounts, start, n) ==
      Progress(Retimed(step, ms, endTimes, stepCounts, start, k).stages,
               Retimed(step, ms, endTimes, stepCounts, start, k).log,
               Some(Attempt(step, ms, endTimes, stepCounts, start, k).error))
  {
    if n > k + 1 {
      RetimedStopsAt(step, ms, endTimes, stepCounts, start, n - 1, k);
    }
  }

  function Min3(a: nat, b: nat, c: nat): (m: nat)
    ensures m <= a && m <= b && m <= c && (m == a || m == b || m == c)
  {
    if a <= b && a <= c then a else if b <= c then b else c
  }

  /** The outcome of `update_stage_timings`: the data to dump, or the
      exception; and the info lines logged on the way. */
  datatype Timing = Timing(data: Result<Json>, log: seq<LogEntry>)

  function StageTimings(text: seq<Tok>, endTimes: seq<real>, stepCounts: seq<int>, start: real): Timing
  {
    match StagesOf(text)
    case Err(e) => Timing(Err(e), [])
    case Ok(StagesView(data, ms)) =>
      var n := Min3(|ms|, |endTimes|, |stepCounts|);
      var p := Retimed(TimeStage, ms, endTimes, stepCounts, start, n);
      if p.failure.Some? then Timing(Err(p.failure.value), p.log)
      else if |ms| != |endTimes| || |ms| != |stepCounts| then Timing(Err(ValueError), p.log)
      else Timing(Store(data, "stages", JObj(p.stages)), p.log)
  }

  /** The strict zip: lists that do not match the stage count always end in
      an exception, so nothing is written. */
  lemma StageTimingsMismatch(text: seq<Tok>, endTimes: seq<real>, stepCounts: seq<int>, start: real)
    requires StagesOf(text).Ok?
    requires |StagesOf(text).value.stages| != |endTimes| || |StagesOf(text).value.stages| != |stepCounts|
    ensures StageTimings(text, endTimes, stepCounts, start).data.Err?
  {
  }

  /** On success each stage, under its own key, is the stage timed with the
      start chained from the previous end time, and one info line per stage
      was logged. */
  lemma {:induction false} StageTimingsAt(text: seq<Tok>, endTimes: seq<real>, stepCounts: seq<int>, start: real, k: nat)
    requires StageTimings(text, endTimes, stepCounts, start).data.Ok?
    ensures StagesOf(text).Ok?
    ensures var ms := StagesOf(text).value.stages;
      |ms| == |endTimes| == |stepCounts| == |StageTimings(text, endTimes, stepCounts, start).log| &&
      (k < |ms| ==>
        Attempt(TimeStage, ms, endTimes, stepCounts, start, k).Ok? &&
        GetPath(StageTimings(text, endTimes, stepCounts, start).data.value, [Key("stages"), Key(ms[k].key)]) ==
          Ok(Attempt(TimeStage, ms, endTimes, stepCounts, start, k).value.0))
  {
    var sv := StagesOf(text).value;
    var data := sv.data;
    var ms := sv.stages;
    var p := Retimed(TimeStage, ms, endTimes, stepCounts, start, |ms|);
    assert StageTimings(text, endTimes, stepCounts, start) == Timing(Store(data, "stages", JObj(p.stages)), p.log);
    RetimedStages(TimeStage, ms, endTimes, stepCounts, start, |ms|);
    if k < |ms| {
      var d2 := JObj(Assign(data.members, "stages", JObj(p.stages)));
      assert Index(d2, "stages") == Ok(JObj(p.stages)) by {
        LookupAssign(data.members, "stages", JObj(p.stages), "stages");
      }
      assert Index(JObj(p.stages), ms[k].key) == Ok(p.stages[k].value) by {
        RetimedKeys(TimeStage, ms, endTimes, stepCounts, start, |ms|);
        LookupAt(p.stages, k);
      }
      GetPathKeys(d2, "stages", ms[k].key);
    }
  }


  /** The effect on the stage `k` of the file: a stage with settings starts
      at the previous stage's end time (the given start for the first), ends
      at its own end time and gets (end − start) / steps as its time step. */
  lemma {:induction false} StageTimingsStage(text: seq<Tok>, endTimes: seq<real>, stepCounts: seq<int>, start: real, k: nat)
    requires StageTimings(text, endTimes, stepCounts, start).data.Ok?
    requires StagesOf(text).Ok? && k < |StagesOf(text).value.stages|
    requires HasKey(StagesOf(text).value.stages[k].value, "stage_settings")
    ensures k < |endTimes| && k < |stepCounts| && stepCounts[k] != 0
    ensures var at := [Key("stages"), Key(StagesOf(text).value.stages[k].key)];
      var d2 := StageTimings(text, endTimes, stepCounts, start).data.value;
      GetPath(d2, at + START_PATH) == Ok(JNum(StartOf(k, start, endTimes))) &&
      GetPath(d2, at + END_PATH) == Ok(JNum(endTimes[k])) &&
      GetPath(d2, at + TIME_STEP_PATH) == Ok(JNum(TimeStep(StartOf(k, start, endTimes), endTimes[k], stepCounts[k])))
  {
    StageTimingsAt(text, endTimes, stepCounts, start, k);
    var ms := StagesOf(text).value.stages;
    var d2 := StageTimings(text, endTimes, stepCounts, start).data.value;
    var at := [Key("stages"), Key(ms[k].key)];
    var s0 := StartOf(k, start, endTimes);
    var st := TimeStage(ms[k].value, s0, endTimes[k], stepCounts[k]);
    assert Attempt(TimeStage, ms, endTimes, stepCounts, start, k) == st;
    assert GetPath(d2, at) == Ok(st.value.0);
    TimeStageSets(ms[k].value, s0, endTimes[k], stepCounts[k]);
    NestedPaths(d2, at, st.value.0);
  }

  lemma {:induction false} NestedPaths(d: Json, at: seq<Step>, v: Json)
    requires GetPath(d, at) == Ok(v)
    ensures GetPath(d, at + START_PATH) == GetPath(v, START_PATH)
    ensures GetPath(d, at + END_PATH) == GetPath(v, END_PATH)
    ensures GetPath(d, at + TIME_STEP_PATH) == GetPath(v, TIME_STEP_PATH)
  {
    GetPathAppend(d, at, START_PATH);
    GetPathAppend(d, at, END_PATH);
    GetPathAppend(d, at, TIME_STEP_PATH);
  }

  /** A stage without settings is what it was. */
  lemma {:induction false} StageTimingsUntouched(text: seq<Tok>, endTimes: seq<real>, stepCounts: seq<int>, start: real, k: nat)
    requires StageTimings(text, endTimes, stepCounts, start).data.Ok?
    requires StagesOf(text).Ok? && k < |StagesOf(text).value.stages|
    requires !HasKey(StagesOf(text).value.stages[k].value, "stage_settings")
    ensures GetPath(StageTimings(text, endTimes, stepCounts, start).data.value,
                    [Key("stages"), Key(StagesOf(text).value.stages[k].key)]) == Ok(StagesOf(text).value.stages[k].value)
  {
    StageTimingsAt(text, endTimes, stepCounts, start, k);
    var ms := StagesOf(text).value.stages;
    TimeStageWithoutSettings(ms[k].value, StartOf(k, start, endTimes), endTimes[k], stepCounts[k]);
  }

  /** Consecutive stages with settings are chained: each one starts where
      the one before it ends. */
  lemma {:induction false} StageTimingsChained(text: seq<Tok>, endTimes: seq<real>, stepCounts: seq<int>, start: real, k: nat)
    requires StageTimings(text, endTimes, stepCounts, start).data.Ok?
    requires StagesOf(text).Ok? && 0 < k < |StagesOf(text).value.stages|
    requires HasKey(StagesOf(text).value.stages[k - 1].value, "stage_settings")
    requires HasKey(StagesOf(text).value.stages[k].value, "stage_settings")
    ensures var ms := StagesOf(text).value.stages;
      var d2 := StageTimings(text, endTimes, stepCounts, start).data.value;
      GetPath(d2, [Key("stages"), Key(ms[k].key)] + START_PATH).Ok? &&
      GetPath(d2, [Key("stages"), Key(ms[k].key)] + START_PATH) ==
        GetPath(d2, [Key("stages"), Key(ms[k - 1].key)] + END_PATH)
  {
    StageTimingsStage(text, endTimes, stepCounts, start, k);
    StageTimingsStage(text, endTimes, stepCounts, start, k - 1);
  }

  // ------------------------------------------------------------ append_stage

  const OUTPUT_NAME_PATH: seq<Step> :=
    [Key("stage_settings"), Key("output_processes"), Key("gid_output"), Pos(0), Key("Parameters"), Key("output_name")]
  const EXECUTION_LIST_PATH: seq<Step> := [Key("orchestrator"), Key("settings"), Key("execution_list")]

  /** The key of the `n`-th stage. */
  function StageKey(n: nat): string
  {
    "stage_" + NatToString(n)
  }

  /** The gid output name of the `n`-th stage. */
  function OutputName(n: nat): string
  {
    "gid_output/output_stage" + NatToString(n)
  }

  /** The stage paths name different keys where they part. */
  lemma {:induction false} StagePathsDiverge()
    ensures Diverge(END_PATH, START_PATH, 2)
    ensures Diverge(TIME_STEP_PATH, START_PATH, 1) && Diverge(TIME_STEP_PATH, END_PATH, 1)
    ensures Diverge(OUTPUT_NAME_PATH, START_PATH, 1) && Diverge(OUTPUT_NAME_PATH, END_PATH, 1)
    ensures Diverge(OUTPUT_NAME_PATH, TIME_STEP_PATH, 1)
  {
    assert END_PATH[..2] == START_PATH[..2];
    assert TIME_STEP_PATH[..1] == START_PATH[..1] == END_PATH[..1] == OUTPUT_NAME_PATH[..1];
  }

  /** `if "stage_preprocess" in new_stage: del new_stage["stage_preprocess"]`. */
  function Unpreprocessed(copy: Json): Result<Json>
  {
    var present :- Contains(copy, "stage_preprocess");
    if present then Delete(copy, "stage_preprocess") else Ok(copy)
  }

  /** Reading a chain that does not start at "stage_preprocess" is not
      affected by removing it, and the entry itself is gone. */
  lemma {:induction false} UnpreprocessedKeeps(copy: Json, q: seq<Step>)
    requires WellFormed(copy) && Unpreprocessed(copy).Ok?
    requires q != [] && q[0].Key? && q[0].name != "stage_preprocess"
    ensures GetPath(Unpreprocessed(copy).value, q) == GetPath(copy, q)
    ensures GetPath(Unpreprocessed(copy).value, [Key("stage_preprocess")]).Err?
  {
    var r := Unpreprocessed(copy).value;
    if copy.JObj? && "stage_preprocess" in Keys(copy.members) {
      assert r == JObj(Remove(copy.members, "stage_preprocess"));
      LookupRemove(copy.members, "stage_preprocess", q[0].name);
      LookupRemove(copy.members, "stage_preprocess", "stage_preprocess");
      assert IndexStep(r, q[0]) == IndexStep(copy, q[0]);
      assert IndexStep(r, Key("stage_preprocess")).Err?;
    } else {
      assert r == copy;
      assert IndexStep(r, Key("stage_preprocess")).Err?;
    }
  }

  /** Assigning along a chain that starts at another key leaves a
      top-level entry alone. */
  lemma {:induction false} SetPathKeepsTop(j: Json, p: seq<Step>, v: Json, c: string)
    requires p != [] && p[|p| - 1].Key? && p[0].Key? && p[0].name != c
    requires SetPath(j, p, v).Ok?
    ensures Index(SetPath(j, p, v).value, c) == Index(j, c)
  {
    assert Diverge(p, [Key(c)], 0);
    GetSetOther(j, p, [Key(c)], 0, v);
    GetPathOne(j, c);
    GetPathOne(SetPath(j, p, v).value, c);
  }

  /** The new stage: a JSON copy of the last stage, retimed by `NextStageFrom`. */
  function NextStage(last: Json, duration: real, steps: int, n: nat): Result<Json>
  {
    var copy :- Loads(Dump(last));
    NextStageFrom(copy, duration, steps, n)
  }

  /** The JSON copy of a decoded stage is the stage itself. */
  lemma {:induction false} NextStageCopy(last: Json, duration: real, steps: int, n: nat)
    requires WellFormed(last)
    ensures NextStage(last, duration, steps, n) == NextStageFrom(last, duration, steps, n)
  {
    LoadsDump(last);
  }

  /** The copy without its preprocessing, starting where the last stage
      ended, lasting `duration` in `steps` steps and writing output under its
      own number. */
  function NextStageFrom(copy: Json, duration: real, steps: int, n: nat): Result<Json>
  {
    var s1 :- Unpreprocessed(copy);
    var prevEnd :- GetPath(s1, END_PATH);
    var s2 :- SetPath(s1, START_PATH, prevEnd);
    var e :- AddNumber(prevEnd, duration);
    var s3 :- SetPath(s2, END_PATH, JNum(e));
    if steps == 0 then Err(ZeroDivisionError)
    else
      var s4 :- SetPath(s3, TIME_STEP_PATH, JNum(Per(duration, steps)));
      SetPath(s4, OUTPUT_NAME_PATH, JStr(OutputName(n)))
  }

  /** The fields the new stage gets: it starts at the last stage's end time,
      ends `duration` later, steps by duration / steps, writes to its own
      output and has no preprocessing; every other top-level entry is the
      last stage's. */
  lemma {:induction false} NextStageFields(last: Json, duration: real, steps: int, n: nat, k: string)
    requires WellFormed(last)
    requires NextStage(last, duration, steps, n).Ok?
    requires k != "stage_settings" && k != "stage_preprocess"
    ensures steps != 0 && GetPath(last, END_PATH).Ok?
    ensures var r := NextStage(last, duration, steps, n).value;
      var prevEnd := GetPath(last, END_PATH).value;
      GetPath(r, START_PATH) == Ok(prevEnd) &&
      AddNumber(prevEnd, duration).Ok? &&
      GetPath(r, END_PATH) == Ok(JNum(AddNumber(prevEnd, duration).value)) &&
      GetPath(r, TIME_STEP_PATH) == Ok(JNum(Per(duration, steps))) &&
      GetPath(r, OUTPUT_NAME_PATH) == Ok(JStr(OutputName(n))) &&
      GetPath(r, [Key("stage_preprocess")]).Err? &&
      GetPath(r, [Key(k)]) == GetPath(last, [Key(k)])
  {
    NextStageCopy(last, duration, steps, n);
    var s1 := Unpreprocessed(last).value;
    UnpreprocessedKeeps(last, END_PATH);
    UnpreprocessedKeeps(last, [Key(k)]);
    var prevEnd := GetPath(s1, END_PATH).value;
    var s2 := SetPath(s1, START_PATH, prevEnd).value;
    var e := AddNumber(prevEnd, duration).value;
    var s3 := SetPath(s2, END_PATH, JNum(e)).value;
    var dt := JNum(Per(duration, steps));
    var s4 := SetPath(s3, TIME_STEP_PATH, dt).value;
    var out := JStr(OutputName(n));
    var r := SetPath(s4, OUTPUT_NAME_PATH, out).value;
    StagePathsDiverge();
    FourSetsReadBack(s1, s2, s3, s4, r, START_PATH, END_PATH, TIME_STEP_PATH, OUTPUT_NAME_PATH, prevEnd, JNum(e), dt, out);
    FourSetsKeepTop(s1, s2, s3, s4, r, START_PATH, END_PATH, TIME_STEP_PATH, OUTPUT_NAME_PATH, prevEnd, JNum(e), dt, out, k);
    FourSetsKeepTop(s1, s2, s3, s4, r, START_PATH, END_PATH, TIME_STEP_PATH, OUTPUT_NAME_PATH, prevEnd, JNum(e), dt, out, "stage_preprocess");
    GetPathOne(r, k);
    GetPathOne(s1, k);
    GetPathOne(r, "stage_preprocess");
    GetPathOne(s1, "stage_preprocess");
  }

  /** Four assignments along paths that part from each other as the stage
      paths do, each read back where it was made. */
  lemma FourSetsReadBack(s1: Json, s2: Json, s3: Json, s4: Json, r: Json,
                         p1: seq<Step>, p2: seq<Step>, p3: seq<Step>, p4: seq<Step>,
                         v1: Json, v2: Json, v3: Json, v4: Json)
    requires p1 != [] && p1[|p1| - 1].Key? && p2 != [] && p2[|p2| - 1].Key?
    requires p3 != [] && p3[|p3| - 1].Key? && p4 != [] && p4[|p4| - 1].Key?
    requires Diverge(p2, p1, 2) && Diverge(p3, p1, 1) && Diverge(p3, p2, 1)
    requires Diverge(p4, p1, 1) && Diverge(p4, p2, 1) && Diverge(p4, p3, 1)
    requires SetPath(s1, p1, v1).Ok? && SetPath(s1, p1, v1).value == s2 && SetPath(s2, p2, v2).Ok? && SetPath(s2, p2, v2).value == s3
    requires SetPath(s3, p3, v3).Ok? && SetPath(s3, p3, v3).value == s4 && SetPath(s4, p4, v4).Ok? && SetPath(s4, p4, v4).value == r
    ensures GetPath(r, p1) == Ok(v1) && GetPath(r, p2) == Ok(v2)
    ensures GetPath(r, p3) == Ok(v3) && GetPath(r, p4) == Ok(v4)
  {
    GetSetSame(s1, p1, v1);
    GetSetSame(s2, p2, v2);
    GetSetSame(s3, p3, v3);
    GetSetSame(s4, p4, v4);
    KeptAfterSet(s2, s3, p2, p1, 2, v2, v1);
    KeptAfterSet(s3, s4, p3, p1, 1, v3, v1);
    KeptAfterSet(s4, r, p4, p1, 1, v4, v1);
    KeptAfterSet(s3, s4, p3, p2, 1, v3, v2);
    KeptAfterSet(s4, r, p4, p2, 1, v4, v2);
    KeptAfterSet(s4, r, p4, p3, 1, v4, v3);
  }

  /** Four assignments under one top-level entry leave every other
      top-level entry alone. */
  lemma FourSetsKeepTop(s1: Json, s2: Json, s3: Json, s4: Json, r: Json,
                        p1: seq<Step>, p2: seq<Step>, p3: seq<Step>, p4: seq<Step>,
                        v1: Json, v2: Json, v3: Json, v4: Json, c: string)
    requires p1 != [] && p1[|p1| - 1].Key? && p2 != [] && p2[|p2| - 1].Key?
    requires p3 != [] && p3[|p3| - 1].Key? && p4 != [] && p4[|p4| - 1].Key?
    requires p1[0] == p2[0] == p3[0] == p4[0] == Key("stage_settings") && c != "stage_settings"
    requires SetPath(s1, p1, v1).Ok? && SetPath(s1, p1, v1).value == s2 && SetPath(s2, p2, v2).Ok? && SetPath(s2, p2, v2).value == s3
    requires SetPath(s3, p3, v3).Ok? && SetPath(s3, p3, v3).value == s4 && SetPath(s4, p4, v4).Ok? && SetPath(s4, p4, v4).value == r
    ensures Index(r, c) == Index(s1, c)
  {
    SetPathKeepsTop(s1, p1, v1, c);
    SetPathKeepsTop(s2, p2, v2, c);
    SetPathKeepsTop(s3, p3, v3, c);
    SetPathKeepsTop(s4, p4, v4, c);
  }

  /** A value read along `q` survives an assignment along a diverging `p`. */
  lemma KeptAfterSet(j: Json, j2: Json, p: seq<Step>, q: seq<Step>, i: nat, v: Json, w: Json)
    requires p != [] && p[|p| - 1].Key?
    requires SetPath(j, p, v).Ok? && SetPath(j, p, v).value == j2
    requires Diverge(p, q, i)
    requires GetPath(j, q) == Ok(w)
    ensures GetPath(j2, q) == Ok(w)
  {
    GetSetOther(j, p, q, i, v);
  }

  /** `data["stages"][key] = stage`, then `key` appended to the
      orchestrator's execution list. */
  function Register(data: Json, key: string, stage: Json): Result<Json>
  {
    var d1 :- SetPath(data, [Key("stages"), Key(key)], stage);
    var list :- GetPath(d1, EXECUTION_LIST_PATH);
    var list2 :- Append(list, JStr(key));
    SetPath(d1, EXECUTION_LIST_PATH, list2)
  }

  lemma {:induction false} RegisterDiverges(key: string, k: string)
    ensures Diverge(EXECUTION_LIST_PATH, [Key("stages"), Key(k)], 0)
    ensures k != key ==> Diverge([Key("stages"), Key(key)], [Key("stages"), Key(k)], 1)
    ensures Diverge([Key("stages"), Key(key)], EXECUTION_LIST_PATH, 0)
  {
    assert [Key("stages"), Key(key)][..1] == [Key("stages"), Key(k)][..1];
  }

  /** The new stage is stored under its key, the other stages are
      untouched. */
  lemma {:induction false} RegisterStages(data: Json, key: string, stage: Json, k: string)
    requires Register(data, key, stage).Ok?
    ensures GetPath(Register(data, key, stage).value, [Key("stages"), Key(key)]) == Ok(stage)
    ensures k != key ==>
      GetPath(Register(data, key, stage).value, [Key("stages"), Key(k)]) == GetPath(data, [Key("stages"), Key(k)])
  {
    var d1 := SetPath(data, [Key("stages"), Key(key)], stage).value;
    var list2 := JArr(GetPath(d1, EXECUTION_LIST_PATH).value.items + [JStr(key)]);
    RegisterDiverges(key, k);
    RegisterDiverges(key, key);
    GetSetSame(data, [Key("stages"), Key(key)], stage);
    GetSetOther(d1, EXECUTION_LIST_PATH, [Key("stages"), Key(key)], 0, list2);
    if k != key {
      GetSetOther(data, [Key("stages"), Key(key)], [Key("stages"), Key(k)], 1, stage);
      GetSetOther(d1, EXECUTION_LIST_PATH, [Key("stages"), Key(k)], 0, list2);
    }
  }

  /** The key is appended to the execution list that was there. */
  lemma {:induction false} RegisterExecution(data: Json, key: string, stage: Json)
    requires Register(data, key, stage).Ok?
    ensures GetPath(data, EXECUTION_LIST_PATH).Ok? && GetPath(data, EXECUTION_LIST_PATH).value.JArr?
    ensures GetPath(Register(data, key, stage).value, EXECUTION_LIST_PATH) ==
      Ok(JArr(GetPath(data, EXECUTION_LIST_PATH).value.items + [JStr(key)]))
  {
    var d1 := SetPath(data, [Key("stages"), Key(key)], stage).value;
    RegisterDiverges(key, key);
    GetSetOther(data, [Key("stages"), Key(key)], EXECUTION_LIST_PATH, 0, stage);
    var list2 := JArr(GetPath(d1, EXECUTION_LIST_PATH).value.items + [JStr(key)]);
    GetSetSame(d1, EXECUTION_LIST_PATH, list2);
  }

  /** The stage names afterwards: the new key last, unless a stage of that
      name existed, which is then overwritten in place. */
  lemma {:induction false} RegisterKeys(data: Json, key: string, stage: Json, ms: seq<Member>)
    requires Register(data, key, stage).Ok?
    requires Index(data, "stages") == Ok(JObj(ms))
    ensures Index(Register(data, key, stage).value, "stages") == Ok(JObj(Assign(ms, key, stage)))
    ensures Keys(Assign(ms, key, stage)) == if key in Keys(ms) then Keys(ms) else Keys(ms) + [key]
  {
    var d1 := SetPath(data, [Key("stages"), Key(key)], stage).value;
    StoreStage(data, key, stage, ms);
    AssignKeys(ms, key, stage);
    var list2 := JArr(GetPath(d1, EXECUTION_LIST_PATH).value.items + [JStr(key)]);
    SetPathKeepsTop(d1, EXECUTION_LIST_PATH, list2, "stages");
  }

  /** `data["stages"][key] = stage` assigns in the stage map. */
  lemma StoreStage(data: Json, key: string, stage: Json, ms: seq<Member>)
    requires Index(data, "stages") == Ok(JObj(ms))
    ensures SetPath(data, [Key("stages"), Key(key)], stage).Ok?
    ensures Index(SetPath(data, [Key("stages"), Key(key)], stage).value, "stages") == Ok(JObj(Assign(ms, key, stage)))
  {
    var path := [Key("stages"), Key(key)];
    assert path[1..] == [Key(key)];
    assert IndexStep(data, path[0]) == Ok(JObj(ms));
    assert SetPath(JObj(ms), path[1..], stage) == Ok(JObj(Assign(ms, key, stage)));
    IndexReplace(data, Key("stages"), JObj(Assign(ms, key, stage)));
  }

  /** `append_stage` on the data: a copy of the last stage, retimed and
      registered under the next stage key. */
  function AppendStage(text: seq<Tok>, duration: real, steps: int): Result<Json>
  {
    var sv :- StagesOf(text);
    var lastKey :- PyIndex(Keys(sv.stages), -1);
    var n := |sv.stages| + 1;
    var last :- Index(JObj(sv.stages), lastKey);
    var stage :- NextStage(last, duration, steps, n);
    Register(sv.data, StageKey(n), stage)
  }

  /** A file without stages has no last stage to copy. */
  lemma AppendStageNoStages(text: seq<Tok>, duration: real, steps: int)
    requires StagesOf(text).Ok? && StagesOf(text).value.stages == []
    ensures AppendStage(text, duration, steps) == Err(IndexError)
  {
  }

  /** On success the file had stages, and the result registers the stage
      built from the last of them. */
  lemma {:induction false} AppendStageSetup(text: seq<Tok>, duration: real, steps: int)
    requires AppendStage(text, duration, steps).Ok?
    ensures StagesOf(text).Ok? && StagesOf(text).value.stages != []
    ensures var ms := StagesOf(text).value.stages;
      WellFormed(ms[|ms| - 1].value) && NextStage(ms[|ms| - 1].value, duration, steps, |ms| + 1).Ok? &&
      AppendStage(text, duration, steps) ==
        Register(StagesOf(text).value.data, StageKey(|ms| + 1), NextStage(ms[|ms| - 1].value, duration, steps, |ms| + 1).value)
  {
    var ms := StagesOf(text).value.stages;
    LookupAt(ms, |ms| - 1);
    LookupWellFormed(ms, ms[|ms| - 1].key);
  }

  // ------------------------------------ update_top_displacement_table_numbers

  const TABLE_MODULE: string := "apply_vector_constraint_table_process"
  const TOP_DISPLACEMENT: string := "PorousDomain.top_displacement"
  const TABLE_PATH: seq<Step> := [Key("Parameters"), Key("table")]
  const CONSTRAINTS_PATH: seq<Step> := [Key("stage_settings"), Key("processes"), Key("constraints_process_list")]

  /** The table of stage `i` (from 0): the stage number in the Y component. */
  function TableFor(i: nat): Json
  {
    Numbers([0.0, (i + 1) as real, 0.0])
  }

  /** The process is the table constraint on the top displacement. */
  predicate Targets(p: Json)
  {
    Get(p, "python_module", JNull) == Ok(JStr(TABLE_MODULE)) &&
    Get(p, "Parameters", JObj([])).Ok? &&
    Get(Get(p, "Parameters", JObj([])).value, "model_part_name", JNull) == Ok(JStr(TOP_DISPLACEMENT))
  }

  /** One process of stage `i`; the `and` short-circuits. */
  function TableProcess(p: Json, i: nat): Result<Json>
  {
    var pyModule :- Get(p, "python_module", JNull);
    if pyModule != JStr(TABLE_MODULE) then Ok(p)
    else
      var params :- Get(p, "Parameters", JObj([]));
      var part :- Get(params, "model_part_name", JNull);
      if part != JStr(TOP_DISPLACEMENT) then Ok(p)
      else SetPath(p, TABLE_PATH, TableFor(i))
  }

  /** A targeted process gets the stage's table and keeps its module and
      model part; any other process is left as it was. */
  lemma {:induction false} TableProcessEffect(p: Json, i: nat)
    requires WellFormed(p) && TableProcess(p, i).Ok?
    ensures Targets(p) ==>
      GetPath(TableProcess(p, i).value, TABLE_PATH) == Ok(TableFor(i)) &&
      Targets(TableProcess(p, i).value)
    ensures !Targets(p) ==> TableProcess(p, i) == Ok(p)
  {
    if Targets(p) {
      var r := TableProcess(p, i).value;
      GetSetSame(p, TABLE_PATH, TableFor(i));
      var params := Get(p, "Parameters", JObj([])).value;
      assert "Parameters" in Keys(p.members);
      assert TABLE_PATH[1..] == [Key("table")];
      assert IndexStep(p, Key("Parameters")) == Ok(params);
      var params2 := SetPath(params, [Key("table")], TableFor(i)).value;
      assert r == Replace(p, Key("Parameters"), params2);
      LookupAssign(p.members, "Parameters", params2, "python_module");
      LookupAssign(p.members, "Parameters", params2, "Parameters");
      LookupAssign(params.members, "table", TableFor(i), "model_part_name");
    }
  }

  /** Running the update twice gives what running it once gives. */
  lemma {:induction false} TableProcessIdempotent(p: Json, i: nat)
    requires WellFormed(p) && TableProcess(p, i).Ok?
    ensures TableProcess(TableProcess(p, i).value, i) == TableProcess(p, i)
  {
    TableProcessEffect(p, i);
    if Targets(p) {
      var r := TableProcess(p, i).value;
      var params := Get(p, "Parameters", JObj([])).value;
      assert TABLE_PATH[1..] == [Key("table")];
      var params2 := SetPath(params, [Key("table")], TableFor(i)).value;
      assert r == Replace(p, Key("Parameters"), params2);
      LookupAssign(p.members, "Parameters", params2, "Parameters");
      assert Get(r, "Parameters", JObj([])) == Ok(params2);
      var params3 := SetPath(params2, [Key("table")], TableFor(i)).value;
      AssignAgain(params.members, "table", TableFor(i));
      assert params3 == params2;
      AssignAgain(p.members, "Parameters", params2);
    }
  }

  /** The constraint list of a stage, defaults filled in as the chain of
      `get` calls does. */
  function ConstraintList(stage: Json): Result<Json>
  {
    var settings :- Get(stage, "stage_settings", JObj([]));
    var procs :- Get(settings, "processes", JObj([]));
    Get(procs, "constraints_process_list", JArr([]))
  }

  /** Stage `i` with every targeted constraint process given the stage's
      table. The processes are updated where they are; a list that came
      from a default belongs to nobody, so nothing is written then. */
  function TableStage(stage: Json, i: nat): Result<Json>
  {
    var list :- ConstraintList(stage);
    var items :- Iterate(list);
    var updated :- Traverse(p => TableProcess(p, i), items);
    if list.JArr? && GetPath(stage, CONSTRAINTS_PATH).Ok? then SetPath(stage, CONSTRAINTS_PATH, JArr(updated))
    else Ok(stage)
  }

  /** After the update, process `k` of a stage's constraint list is the
      updated process. */
  lemma {:induction false} TableStageAt(stage: Json, i: nat, k: nat)
    requires TableStage(stage, i).Ok?
    requires GetPath(stage, CONSTRAINTS_PATH).Ok? && GetPath(stage, CONSTRAINTS_PATH).value.JArr?
    requires k < |GetPath(stage, CONSTRAINTS_PATH).value.items|
    ensures var items := GetPath(stage, CONSTRAINTS_PATH).value.items;
      TableProcess(items[k], i).Ok? &&
      GetPath(TableStage(stage, i).value, CONSTRAINTS_PATH).Ok? &&
      GetPath(TableStage(stage, i).value, CONSTRAINTS_PATH).value.JArr? &&
      |GetPath(TableStage(stage, i).value, CONSTRAINTS_PATH).value.items| == |items| &&
      GetPath(TableStage(stage, i).value, CONSTRAINTS_PATH).value.items[k] == TableProcess(items[k], i).value
  {
    ConstraintListIsPath(stage);
    var items := GetPath(stage, CONSTRAINTS_PATH).value.items;
    var f := p => TableProcess(p, i);
    TraverseAt(f, items, k);
    GetSetSame(stage, CONSTRAINTS_PATH, JArr(Traverse(f, items).value));
  }

  /** Where the whole chain exists, the `get` chain reads it. */
  lemma {:induction false} ConstraintListIsPath(stage: Json)
    requires GetPath(stage, CONSTRAINTS_PATH).Ok?
    ensures ConstraintList(stage) == GetPath(stage, CONSTRAINTS_PATH)
  {
    var settings := Index(stage, "stage_settings").value;
    var procs := Index(settings, "processes").value;
    assert CONSTRAINTS_PATH[1..] == [Key("processes"), Key("constraints_process_list")];
    assert CONSTRAINTS_PATH[1..][1..] == [Key("constraints_process_list")];
    assert GetPath(stage, CONSTRAINTS_PATH) == GetPath(settings, CONSTRAINTS_PATH[1..]);
    assert GetPath(settings, CONSTRAINTS_PATH[1..]) == GetPath(procs, CONSTRAINTS_PATH[1..][1..]);
  }

  /** A stage without the whole chain has nothing updated. */
  lemma TableStageWithoutConstraints(stage: Json, i: nat)
    requires TableStage(stage, i).Ok?
    requires GetPath(stage, CONSTRAINTS_PATH).Err?
    ensures TableStage(stage, i) == Ok(stage)
  {
  }

  /** The loop over the stages: stage `i` gets the table of index `i`. */
  function TableStages(ms: seq<Member>): (r: Result<seq<Member>>)
    ensures r.Ok? ==> |r.value| == |ms|
  {
    if ms == [] then Ok([])
    else
      var init :- TableStages(ms[..|ms| - 1]);
      var st :- TableStage(ms[|ms| - 1].value, |ms| - 1);
      Ok(init + [Member(ms[|ms| - 1].key, st)])
  }

  /** Stage `k` after the loop is stage `k` updated with the table of its
      own index, under the same name. */
  lemma {:induction false} TableStagesAt(ms: seq<Member>, k: nat)
    requires TableStages(ms).Ok? && k < |ms|
    ensures TableStage(ms[k].value, k).Ok?
    ensures TableStages(ms).value[k] == Member(ms[k].key, TableStage(ms[k].value, k).value)
  {
    if k < |ms| - 1 {
      TableStagesAt(ms[..|ms| - 1], k);
    }
  }

  /** The loop keeps the stage names. */
  lemma {:induction false} TableStagesKeys(ms: seq<Member>)
    requires TableStages(ms).Ok?
    ensures Keys(TableStages(ms).value) == Keys(ms)
  {
    forall k | 0 <= k < |ms|
      ensures Keys(TableStages(ms).value)[k] == Keys(ms)[k]
    {
      TableStagesAt(ms, k);
    }
  }

  /** `update_top_displacement_table_numbers` on the data. */
  function TopDisplacementTables(text: seq<Tok>): Result<Json>
  {
    var sv :- StagesOf(text);
    var updated :- TableStages(sv.stages);
    Store(sv.data, "stages", JObj(updated))
  }

  /** Each stage of the file, under its own name, is that stage with the
      table of its position. */
  lemma {:induction false} TopDisplacementTablesAt(text: seq<Tok>, k: nat)
    requires TopDisplacementTables(text).Ok?
    ensures StagesOf(text).Ok?
    ensures var ms := StagesOf(text).value.stages;
      k < |ms| ==>
        TableStage(ms[k].value, k).Ok? &&
        GetPath(TopDisplacementTables(text).value, [Key("stages"), Key(ms[k].key)]) == Ok(TableStage(ms[k].value, k).value)
  {
    var sv := StagesOf(text).value;
    var ms := sv.stages;
    if k < |ms| {
      var updated := TableStages(ms).value;
      TableStagesAt(ms, k);
      TableStagesKeys(ms);
      var d2 := JObj(Assign(sv.data.members, "stages", JObj(updated)));
      assert Index(d2, "stages") == Ok(JObj(updated)) by {
        LookupAssign(sv.data.members, "stages", JObj(updated), "stages");
      }
      LookupAt(updated, k);
      GetPathKeys(d2, "stages", ms[k].key);
    }
  }

  /** The stage that raises decides the exception of the whole loop. */
  lemma {:induction false} TableStagesFailure(ms: seq<Member>, i: nat)
    requires i < |ms|
    requires TableStages(ms[..i]).Ok?
    requires TableStage(ms[i].value, i).Err?
    ensures TableStages(ms) == Err(TableStage(ms[i].value, i).error)
  {
    var init := ms[..i];
    var xs := ms[..i + 1];
    assert xs == init + [ms[i]];
    assert |init| == i;
    TableStagesSnocErr(xs, init, ms[i]);
    var e := TableStages(xs);
    assert e == Err(TableStage(ms[i].value, i).error);
    TableStagesFailureSticks(ms, i + 1);
    assert TableStages(ms) == e;
  }

  lemma {:induction false} TableStagesSnocErr(xs: seq<Member>, init: seq<Member>, last: Member)
    requires xs == init + [last]
    requires TableStages(init).Ok?
    requires TableStage(last.value, |init|).Err?
    ensures TableStages(xs) == Err(TableStage(last.value, |init|).error)
  {
    assert xs[..|xs| - 1] == init;
  }

  lemma {:induction false} TableStagesFailureSticks(ms: seq<Member>, i: nat)
    requires i <= |ms|
    requires TableStages(ms[..i]).Err?
    ensures TableStages(ms) == TableStages(ms[..i])
  {
    if i < |ms| {
      assert ms[..|ms| - 1][..i] == ms[..i];
      TableStagesFailureSticks(ms[..|ms| - 1], i);
    } else {
      assert ms[..i] == ms;
    }
  }
}
