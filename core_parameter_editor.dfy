/** The project-parameter editor of the core package: the same edits as the
    model's editor, but `update_nested_value` answers whether it found the
    process and `update_property` answers how many values it replaced. The
    file on disk is the field `file`; the logger callback's calls are
    collected in `log`. */
module CoreParameterEditor {
  import opened Common
  import opened Json
  import opened ProjectParameters
  import ParameterEditor

  /** The nested update reports a match exactly when some load process
      carries the module name and the key; the one changed is the first. */
  lemma {:induction false} NestedUpdateFoundIff(text: seq<Tok>, moduleName: string, key: string, v: Json)
    requires NestedUpdate(text, moduleName, key, v).Ok?
    ensures Loads(text).Ok? && LoadsProcesses(Loads(text).value).Ok?
    ensures var items := LoadsProcesses(Loads(text).value).value.items;
      NestedUpdate(text, moduleName, key, v).value.Some? <==>
        exists j :: 0 <= j < |items| && ProcessMatches(items[j], moduleName, key) == Ok(true)
  {
    var items := LoadsProcesses(Loads(text).value).value.items;
    var test := MatchTest(moduleName, key);
    FirstMatchNone(test, items, 0);
    if NestedUpdate(text, moduleName, key, v).value.Some? {
      var f := FirstMatchFrom(test, items, 0).value.value;
      assert ProcessMatches(items[f], moduleName, key) == Ok(true);
    } else {
      assert FirstMatchFrom(test, items, 0) == Ok(None);
      forall j | 0 <= j < |items|
        ensures ProcessMatches(items[j], moduleName, key) != Ok(true)
      {
        assert test(items[j]) == Ok(false);
      }
    }
  }

  class CoreProjectParameterEditor {
    var rawText: seq<Tok>
    var file: seq<Tok>
    var log: seq<LogEntry>

    constructor (text: seq<Tok>)
      ensures rawText == text && file == text && log == []
    {
      rawText := text;
      file := text;
      log := [];
    }

    /** `update_nested_value`: true after the first matching load process got
        `v` and the file was rewritten; false, with a warning and nothing
        written, when no process matched; any exception comes out as
        RuntimeError and changes nothing. */
    method UpdateNestedValue(moduleName: string, key: string, v: Json) returns (r: Result<bool>)
      modifies this
      ensures match NestedUpdate(old(rawText), moduleName, key, v)
        case Err(_) => r == Err(RuntimeError) && rawText == old(rawText) && file == old(file) && log == old(log)
        case Ok(None) => r == Ok(false) && rawText == old(rawText) && file == old(file) &&
          log == old(log) + [ParameterEditor.NotFoundUnder(key, moduleName)]
        case Ok(Some(d)) => r == Ok(true) && rawText == Dump(d) && file == rawText && log == old(log)
    {
      var data := Loads(rawText);
      if data.Err? {
        return Err(RuntimeError);
      }
      var lp := LoadsProcesses(data.value);
      if lp.Err? {
        return Err(RuntimeError);
      }
      var items := lp.value.items;
      var found := ParameterEditor.FindMatch(items, moduleName, key);
      if found.Err? {
        return Err(RuntimeError);
      }
      if found.value.None? {
        log := log + [ParameterEditor.NotFoundUnder(key, moduleName)];
        return Ok(false);
      }
      var f := found.value.value;
      var p2 := SetPath(items[f], ParameterPath(key), v);
      if p2.Err? {
        return Err(RuntimeError);
      }
      var d2 := SetPath(data.value, LOADS_PATH, JArr(items[f := p2.value]));
      if d2.Err? {
        return Err(RuntimeError);
      }
      rawText := Dump(d2.value);
      file := rawText;
      r := Ok(true);
    }

    /** `update_property`: every `"name": <number>` gets the new number, the
        number of replacements is returned and decides the warning, and the
        file is written either way. A count of 0 leaves the text as it was. */
    method UpdateProperty(name: string, v: real) returns (count: nat)
      modifies this
      ensures count == PropertyCount(old(rawText), name)
      ensures rawText == PropertyRewritten(old(rawText), name, v)
      ensures count == 0 ==> rawText == old(rawText)
      ensures log == old(log) + PropertyWarnings(name, count)
      ensures file == rawText
    {
      SubstPropertyPointwise(rawText, name, v);
      SubstPropertyNone(rawText, name, v);
      var result := SubstProperty(rawText, name, v);
      rawText := result.0;
      count := result.1;
      log := log + PropertyWarnings(name, count);
      file := rawText;
    }
  }

  /** `open(json_path)` in the constructor: a missing file raises; otherwise
      an editor holding its text. */
  method Open(file: Option<seq<Tok>>) returns (r: Result<CoreProjectParameterEditor>)
    ensures r.Err? <==> file.None?
    ensures r.Err? ==> r.error == FileNotFoundError
    ensures r.Ok? ==> fresh(r.value) && r.value.rawText == file.value && r.value.file == file.value && r.value.log == []
  {
    if file.None? {
      return Err(FileNotFoundError);
    }
    var editor := new CoreProjectParameterEditor(file.value);
    r := Ok(editor);
  }
}
