/** The project-parameter editor of the element-test model: it holds the
    parameter file's text, edits it and writes it back. The file on disk is
    the field `file`; the logger callback's calls are collected in `log`. */
module ParameterEditor {
  import opened Common
  import opened Json
  import opened ProjectParameters

  /** The warning for a nested value that no process carries. */
  function NotFoundUnder(key: string, moduleName: string): LogEntry
  {
    Message(WarnLevel, "Could not find '" + key + "' under '" + moduleName + "'.")
  }

  /** The info line of an appended stage. */
  function Appended(stageKey: string): LogEntry
  {
    Message(InfoLevel, "Appended a new stage: " + stageKey)
  }

  /** The inner loop of the table update: every process of one stage, in
      order, stopping at the first that raises. */
  method UpdateProcesses(items: seq<Json>, i: nat) returns (r: Result<seq<Json>>)
    ensures r == Traverse(p => TableProcess(p, i), items)
  {
    var f := p => TableProcess(p, i);
    var done: seq<Json> := [];
    var k := 0;
    while k < |items|
      invariant 0 <= k <= |items|
      invariant Traverse(f, items[..k]) == Ok(done)
    {
      var p := TableProcess(items[k], i);
      if p.Err? {
        TraverseSnocErr(f, items, k);
        return Err(p.error);
      }
      TraverseSnocOk(f, items, k, done, p.value);
      done := done + [p.value];
      k := k + 1;
    }
    assert items[..k] == items;
    r := Ok(done);
  }

  /** The search loop of `update_nested_value`: the processes are tested in
      order until one matches or a test raises. */
  method FindMatch(items: seq<Json>, moduleName: string, key: string) returns (r: Result<Option<nat>>)
    ensures r == FirstMatchFrom(MatchTest(moduleName, key), items, 0)
  {
    var i := 0;
    while i < |items|
      invariant 0 <= i <= |items|
      invariant FirstMatchFrom(MatchTest(moduleName, key), items, 0) == FirstMatchFrom(MatchTest(moduleName, key), items, i)
    {
      var test := ProcessMatches(items[i], moduleName, key);
      if test.Err? {
        return Err(test.error);
      }
      if test.value {
        return Ok(Some(i));
      }
      i := i + 1;
    }
    r := Ok(None);
  }

  /** One stage of the table update: the processes are updated where they
      are, which changes the stage only when its constraint list exists. */
  method UpdateStage(stage: Json, i: nat) returns (updated: Result<Json>)
    ensures updated == TableStage(stage, i)
  {
    var list := ConstraintList(stage);
    if list.Err? {
      return Err(list.error);
    }
    var items := Iterate(list.value);
    if items.Err? {
      return Err(items.error);
    }
    var processes := UpdateProcesses(items.value, i);
    if processes.Err? {
      return Err(processes.error);
    }
    updated := Ok(stage);
    if list.value.JArr? && GetPath(stage, CONSTRAINTS_PATH).Ok? {
      updated := SetPath(stage, CONSTRAINTS_PATH, JArr(processes.value));
    }
  }

  /** The outer loop of the table update: stage `i` (from 0) in order,
      stopping at the first exception. */
  method UpdateStages(ms: seq<Member>) returns (r: Result<seq<Member>>)
    ensures r == TableStages(ms)
  {
    var done: seq<Member> := [];
    var i := 0;
    while i < |ms|
      invariant 0 <= i <= |ms|
      invariant TableStages(ms[..i]) == Ok(done)
    {
      var updated := UpdateStage(ms[i].value, i);
      assert ms[..i + 1][..i] == ms[..i];
      if updated.Err? {
        TableStagesFailure(ms, i);
        return Err(updated.error);
      }
      done := done + [Member(ms[i].key, updated.value)];
      i := i + 1;
    }
    assert ms[..i] == ms;
    r := Ok(done);
  }

  /** The timing loop: the stages zipped with their end times and step
      counts, each stage starting at the previous end time, stopping at the
      first exception. The per-stage edit is a parameter; the editor passes
      TimeStage. */
  method RetimeStages(stepF: StageStep, ms: seq<Member>, endTimes: seq<real>, stepCounts: seq<int>, start: real) returns (p: Progress)
    ensures p == Retimed(stepF, ms, endTimes, stepCounts, start, Min3(|ms|, |endTimes|, |stepCounts|))
  {
    var n := Min3(|ms|, |endTimes|, |stepCounts|);
    var stages := ms;
    var entries: seq<LogEntry> := [];
    var current := start;
    var i := 0;
    while i < n
      invariant 0 <= i <= n
      invariant Retimed(stepF, ms, endTimes, stepCounts, start, i) == Progress(stages, entries, None)
      invariant current == StartOf(i, start, endTimes)
      invariant forall k :: i <= k < |ms| ==> stages[k] == ms[k]
    {
      var step := stepF(stages[i].value, current, endTimes[i], stepCounts[i]);
      assert step == Attempt(stepF, ms, endTimes, stepCounts, start, i);
      if step.Err? {
        RetimedStopsAt(stepF, ms, endTimes, stepCounts, start, n, i);
        return Progress(stages, entries, Some(step.error));
      }
      RetimedStep(stepF, ms, endTimes, stepCounts, start, i);
      stages := stages[i := Member(stages[i].key, step.value.0)];
      entries := entries + [StageTimed(ms[i].key, current, endTimes[i], step.value.1)];
      current := endTimes[i];
      i := i + 1;
    }
    p := Progress(stages, entries, None);
  }

  class ProjectParameterEditor {
    var rawText: seq<Tok>
    var file: seq<Tok>
    var log: seq<LogEntry>

    constructor (text: seq<Tok>)
      ensures rawText == text && file == text && log == []
    {
      rawText := text;
      file := text;
      log := [];
    }

    /** `update_nested_value`: the first load process of `moduleName` whose
        parameters hold `key` gets `v` there and the file is rewritten; with
        no such process a warning is logged; any exception comes out as
        RuntimeError and changes nothing. */
    method UpdateNestedValue(moduleName: string, key: string, v: Json) returns (r: Outcome)
      modifies this
      ensures match NestedUpdate(old(rawText), moduleName, key, v)
        case Err(_) => r == Fail(RuntimeError) && rawText == old(rawText) && file == old(file) && log == old(log)
        case Ok(None) => r == Pass && rawText == old(rawText) && file == old(file) && log == old(log) + [NotFoundUnder(key, moduleName)]
        case Ok(Some(d)) => r == Pass && rawText == Dump(d) && file == rawText && log == old(log)
    {
      var data := Loads(rawText);
      if data.Err? {
        return Fail(RuntimeError);
      }
      var lp := LoadsProcesses(data.value);
      if lp.Err? {
        return Fail(RuntimeError);
      }
      var items := lp.value.items;
      var found := FindMatch(items, moduleName, key);
      if found.Err? {
        return Fail(RuntimeError);
      }
      if found.value.None? {
        log := log + [NotFoundUnder(key, moduleName)];
        return Pass;
      }
      var f := found.value.value;
      var p2 := SetPath(items[f], ParameterPath(key), v);
      if p2.Err? {
        return Fail(RuntimeError);
      }
      var d2 := SetPath(data.value, LOADS_PATH, JArr(items[f := p2.value]));
      if d2.Err? {
        return Fail(RuntimeError);
      }
      rawText := Dump(d2.value);
      file := rawText;
      r := Pass;
    }

    /** `update_property`: every `"name": <number>` gets the new number,
        the count decides the warning, and the file is written either way. */
    method UpdateProperty(name: string, v: real)
      modifies this
      ensures rawText == PropertyRewritten(old(rawText), name, v)
      ensures log == old(log) + PropertyWarnings(name, PropertyCount(old(rawText), name))
      ensures file == rawText
    {
      SubstPropertyPointwise(rawText, name, v);
      var newText, count := SubstProperty(rawText, name, v).0, SubstProperty(rawText, name, v).1;
      rawText := newText;
      log := log + PropertyWarnings(name, count);
      file := rawText;
    }

    /** `update_stage_timings`: the strict zip of the stages with their end
        times and step counts. Each stage logs a line as it is timed; an
        exception (including a length mismatch) comes out as RuntimeError
        and leaves the text and the file alone. */
    method UpdateStageTimings(endTimes: seq<real>, stepCounts: seq<int>, start: real) returns (r: Outcome)
      modifies this
      ensures var t := StageTimings(old(rawText), endTimes, stepCounts, start);
        log == old(log) + t.log &&
        if t.data.Ok? then r == Pass && rawText == Dump(t.data.value) && file == rawText
        else r == Fail(RuntimeError) && rawText == old(rawText) && file == old(file)
    {
      var sv := StagesOf(rawText);
      if sv.Err? {
        return Fail(RuntimeError);
      }
      var data, ms := sv.value.data, sv.value.stages;
      var p := RetimeStages(TimeStage, ms, endTimes, stepCounts, start);
      log := log + p.log;
      if p.failure.Some? {
        return Fail(RuntimeError);
      }
      if |ms| != |endTimes| || |ms| != |stepCounts| {
        return Fail(RuntimeError);
      }
      var d2 := Store(data, "stages", JObj(p.stages));
      rawText := Dump(d2.value);
      file := rawText;
      r := Pass;
    }

    /** `append_stage`: the data with the new stage is dumped and written
        and the new key is logged; exceptions are not caught, so they come
        out as raised and change nothing. */
    method AppendStage(duration: real, steps: int) returns (r: Outcome)
      modifies this
      ensures var d := ProjectParameters.AppendStage(old(rawText), duration, steps);
        if d.Ok? then
          r == Pass && rawText == Dump(d.value) && file == rawText &&
          log == old(log) + [Appended(StageKey(|StagesOf(old(rawText)).value.stages| + 1))]
        else r == Fail(d.error) && rawText == old(rawText) && file == old(file) && log == old(log)
    {
      var d := ProjectParameters.AppendStage(rawText, duration, steps);
      if d.Err? {
        return Fail(d.error);
      }
      AppendStageSetup(rawText, duration, steps);
      var n := |StagesOf(rawText).value.stages| + 1;
      rawText := Dump(d.value);
      file := rawText;
      log := log + [Appended(StageKey(n))];
      r := Pass;
    }

    /** `update_top_displacement_table_numbers`: stage `i` (from 0) gives
        its top-displacement table constraints the table [0, i + 1, 0]. An
        exception is logged and raised again, and nothing is written. */
    method UpdateTopDisplacementTableNumbers() returns (r: Outcome)
      modifies this
      ensures var d := TopDisplacementTables(old(rawText));
        if d.Ok? then r == Pass && rawText == Dump(d.value) && file == rawText && log == old(log)
        else r == Fail(d.error) && rawText == old(rawText) && file == old(file) && log == old(log) + [ExceptionLogged(d.error)]
    {
      var sv := StagesOf(rawText);
      if sv.Err? {
        log := log + [ExceptionLogged(sv.error)];
        return Fail(sv.error);
      }
      var data, ms := sv.value.data, sv.value.stages;
      var updated := UpdateStages(ms);
      if updated.Err? {
        log := log + [ExceptionLogged(updated.error)];
        return Fail(updated.error);
      }
      var d2 := Store(data, "stages", JObj(updated.value));
      rawText := Dump(d2.value);
      file := rawText;
      r := Pass;
    }
  }

  /** `open(json_path)`: a missing file raises; otherwise an editor holding
      its text. */
  method Open(file: Option<seq<Tok>>) returns (r: Result<ProjectParameterEditor>)
    ensures r.Err? <==> file.None?
    ensures r.Err? ==> r.error == FileNotFoundError
    ensures r.Ok? ==> fresh(r.value) && r.value.rawText == file.value && r.value.file == file.value && r.value.log == []
  {
    if file.None? {
      return Err(FileNotFoundError);
    }
    var editor := new ProjectParameterEditor(file.value);
    r := Ok(editor);
  }
}
