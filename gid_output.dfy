/** The parsed GiD result file, as the reader hands it to the collectors, and
    the sorting of its records into the five result buckets. */
module GidOutput {
  import opened Common

  /** One Gauss-point entry of a point's "value" list. */
  datatype Item = Null | Num(x: real) | Vec(xs: seq<real>)

  /** The "value" field of a point: missing, a non-list, or a list of items. */
  datatype Field = Absent | Atom | List(items: seq<Item>)

  datatype Point = Point(value: Field)

  /** One result record `{time, values}`. */
  datatype Record = Record(time: real, values: seq<Point>)

  /** One result name with its records, in the reader's dictionary order. */
  type Entry = (string, seq<Record>)

  /** A stage's result file: absent from disk at `path`, or read into its
      results and the time steps the reader found in it. */
  datatype StageOutput = Missing(path: string) | Present(results: seq<Entry>, timeSteps: seq<real>)

  const CAUCHY_STRESS_TENSOR: string := "CAUCHY_STRESS_TENSOR"
  const MEAN_EFFECTIVE_STRESS: string := "MEAN_EFFECTIVE_STRESS"
  const VON_MISES_STRESS: string := "VON_MISES_STRESS"
  const DISPLACEMENT: string := "DISPLACEMENT"
  const ENGINEERING_STRAIN_TENSOR: string := "ENGINEERING_STRAIN_TENSOR"

  /** Every point carries a list of exactly three Gauss-point values. */
  predicate IsTri3ElementGp(values: seq<Point>)
  {
    forall k :: 0 <= k < |values| ==> values[k].value.List? && |values[k].value.items| == 3
  }

  /** `values[0]["value"][0]` when the record has values, Null otherwise. */
  function FirstValueOrNone(r: Record): (v: Result<Item>)
    ensures r.values == [] ==> v == Ok(Null)
    ensures r.values != [] && v.Ok? ==>
      r.values[0].value.List? && |r.values[0].value.items| > 0 && v.value == r.values[0].value.items[0]
    ensures r.values != [] && v.Err? ==>
      (r.values[0].value.Absent? && v.error == KeyError) ||
      (r.values[0].value.Atom? && v.error == TypeError) ||
      (r.values[0].value == List([]) && v.error == IndexError)
  {
    if r.values == [] then Ok(Null)
    else match r.values[0].value
      case Absent => Err(KeyError)
      case Atom => Err(TypeError)
      case List(items) => if items == [] then Err(IndexError) else Ok(items[0])
  }

  datatype Buckets = Buckets(
    stress: seq<Record>,
    meanStress: seq<Record>,
    vonMises: seq<Record>,
    displacement: seq<Record>,
    strain: seq<Record>)

  const NoBuckets: Buckets := Buckets([], [], [], [], [])

  /** One call of `_categorize_result`: the record goes to at most one bucket. */
  function Categorize(b: Buckets, name: string, r: Record): Buckets
  {
    if name == CAUCHY_STRESS_TENSOR then b.(stress := b.stress + [r])
    else if name == MEAN_EFFECTIVE_STRESS && IsTri3ElementGp(r.values) then b.(meanStress := b.meanStress + [r])
    else if name == VON_MISES_STRESS && IsTri3ElementGp(r.values) then b.(vonMises := b.vonMises + [r])
    else if name == DISPLACEMENT then b.(displacement := b.displacement + [r])
    else if name == ENGINEERING_STRAIN_TENSOR then b.(strain := b.strain + [r])
    else b
  }

  function CategorizeAll(b: Buckets, name: string, rs: seq<Record>): Buckets
  {
    if rs == [] then b else Categorize(CategorizeAll(b, name, rs[..|rs| - 1]), name, rs[|rs| - 1])
  }

  /** The buckets after the nested loop over all entries. */
  function Bucketed(entries: seq<Entry>): Buckets
  {
    if entries == [] then NoBuckets
    else CategorizeAll(Bucketed(entries[..|entries| - 1]), entries[|entries| - 1].0, entries[|entries| - 1].1)
  }

  /** The records that pass the tri3 filter, in order. */
  function Tri3Only(rs: seq<Record>): (out: seq<Record>)
    ensures |out| <= |rs|
    ensures forall k :: 0 <= k < |out| ==> IsTri3ElementGp(out[k].values)
  {
    if rs == [] then []
    else Tri3Only(rs[..|rs| - 1]) + (if IsTri3ElementGp(rs[|rs| - 1].values) then [rs[|rs| - 1]] else [])
  }

  /** Reference definition of a bucket: the records filed under `name`, in
      entry order, filtered by the tri3 test when `tri3` holds. */
  function Select(entries: seq<Entry>, name: string, tri3: bool): seq<Record>
  {
    if entries == [] then []
    else
      var e := entries[|entries| - 1];
      Select(entries[..|entries| - 1], name, tri3) +
      (if e.0 != name then [] else if tri3 then Tri3Only(e.1) else e.1)
  }

  /** What one entry adds to every bucket. */
  lemma {:induction false} CategorizeAllAppends(b: Buckets, name: string, rs: seq<Record>)
    ensures CategorizeAll(b, name, rs) == Buckets(
      b.stress + (if name == CAUCHY_STRESS_TENSOR then rs else []),
      b.meanStress + (if name == MEAN_EFFECTIVE_STRESS then Tri3Only(rs) else []),
      b.vonMises + (if name == VON_MISES_STRESS then Tri3Only(rs) else []),
      b.displacement + (if name == DISPLACEMENT then rs else []),
      b.strain + (if name == ENGINEERING_STRAIN_TENSOR then rs else []))
  {
    if rs != [] {
      var init := rs[..|rs| - 1];
      CategorizeAllAppends(b, name, init);
      assert rs == init + [rs[|rs| - 1]];
    }
  }

  /** Each bucket holds exactly the records of its own result name, mean and
      von Mises records only when they are tri3 Gauss-point records; records
      of any other name are dropped. */
  lemma {:induction false} BucketedIsSelect(entries: seq<Entry>)
    ensures Bucketed(entries) == Buckets(
      Select(entries, CAUCHY_STRESS_TENSOR, false),
      Select(entries, MEAN_EFFECTIVE_STRESS, true),
      Select(entries, VON_MISES_STRESS, true),
      Select(entries, DISPLACEMENT, false),
      Select(entries, ENGINEERING_STRAIN_TENSOR, false))
  {
    if entries != [] {
      var init := entries[..|entries| - 1];
      var e := entries[|entries| - 1];
      BucketedIsSelect(init);
      CategorizeAllAppends(Bucketed(init), e.0, e.1);
    }
  }

  /** The buckets of a stage's result file. */
  function BucketsOf(output: StageOutput): Buckets
  {
    if output.Missing? then NoBuckets
    else Buckets(
      Select(output.results, CAUCHY_STRESS_TENSOR, false),
      Select(output.results, MEAN_EFFECTIVE_STRESS, true),
      Select(output.results, VON_MISES_STRESS, true),
      Select(output.results, DISPLACEMENT, false),
      Select(output.results, ENGINEERING_STRAIN_TENSOR, false))
  }

  function TimeStepsOf(output: StageOutput): seq<real>
  {
    if output.Missing? then [] else output.timeSteps
  }

  const MISSING_RESULT_FILE: string := "Missing result file: "

  /** The warning logged for a result file that does not exist. */
  function MissingWarning(path: string): LogEntry
  {
    Message(WarnLevel, MISSING_RESULT_FILE + path)
  }

  /** What the collectors log while reading one stage's result file. */
  function ReadLog(output: StageOutput): seq<LogEntry>
  {
    if output.Missing? then [MissingWarning(output.path)] else []
  }

  /** `_read_results` / `_collect_results`: a missing file is reported with a
      warning and gives six empty lists; otherwise every record of every
      result name is categorized, and the time steps come from the reader. */
  method ReadResults(output: StageOutput) returns (b: Buckets, timeSteps: seq<real>, log: seq<LogEntry>)
    ensures b == BucketsOf(output) && timeSteps == TimeStepsOf(output) && log == ReadLog(output)
    ensures output.Missing? ==>
      b == NoBuckets && timeSteps == [] && log == [Message(WarnLevel, MISSING_RESULT_FILE + output.path)]
    ensures output.Present? ==> log == []
    ensures output.Present? ==> timeSteps == output.timeSteps
    ensures output.Present? ==> b == Buckets(
      Select(output.results, CAUCHY_STRESS_TENSOR, false),
      Select(output.results, MEAN_EFFECTIVE_STRESS, true),
      Select(output.results, VON_MISES_STRESS, true),
      Select(output.results, DISPLACEMENT, false),
      Select(output.results, ENGINEERING_STRAIN_TENSOR, false))
  {
    b := NoBuckets;
    timeSteps := [];
    log := [];
    if output.Missing? {
      log := [MissingWarning(output.path)];
      return;
    }
    var entries := output.results;
    var i := 0;
    while i < |entries|
      invariant 0 <= i <= |entries|
      invariant b == Bucketed(entries[..i])
    {
      var name := entries[i].0;
      var items := entries[i].1;
      var j := 0;
      while j < |items|
        invariant 0 <= j <= |items|
        invariant b == CategorizeAll(Bucketed(entries[..i]), name, items[..j])
      {
        b := Categorize(b, name, items[j]);
        assert items[..j + 1][..j] == items[..j];
        j := j + 1;
      }
      assert items[..j] == items;
      assert entries[..i + 1][..i] == entries[..i];
      i := i + 1;
    }
    assert entries[..i] == entries;
    BucketedIsSelect(entries);
    timeSteps := output.timeSteps;
  }
}
