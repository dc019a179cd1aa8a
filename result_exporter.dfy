/** The Excel export of a run's results: for each plot registered for the
    test type, a two-column sheet built from the results dictionary, named
    "Plot k" after the plot's 1-based position; plots without data are
    skipped. Spreadsheet writing, dialogs and message boxes are left out:
    the export yields the sheets and the message it would show. */
module ResultExporter {
  import opened Common

  /** A value of the results dictionary as the exporter sees it: a list of
      numbers, or anything else (None, a number), with its truthiness. */
  datatype Cell = Series(xs: seq<real>) | NonList(truthy: bool)

  type Results = map<string, Cell>

  /** `results.get(k)` is truthy: present, and a non-empty list or a truthy
      non-list. */
  predicate Truthy(results: Results, k: string)
  {
    k in results && (if results[k].Series? then |results[k].xs| > 0 else results[k].truthy)
  }

  /** One column of a sheet. */
  datatype Column = Column(header: string, values: seq<real>)

  /** A sheet's data: columns of equal length, or the Mohr circle of the
      last principal stresses, which is sampled at 400 angles and so never
      empty. */
  datatype Frame = Columns(cols: seq<Column>) | MohrCircle(center: real, radius: real)

  /** `df.empty`. */
  predicate Empty(f: Frame)
  {
    f.Columns? && (|f.cols| == 0 || |f.cols[0].values| == 0)
  }

  /** `pd.DataFrame({x_label: xs, y_label: ys})`: columns of different
      lengths raise ValueError, and equal labels leave one column holding
      the later values. */
  function Pair(xLabel: string, xs: seq<real>, yLabel: string, ys: seq<real>): (r: Result<Frame>)
    ensures r.Ok? <==> |xs| == |ys|
    ensures r.Err? ==> r.error == ValueError
    ensures r.Ok? ==> r.value.Columns? && |r.value.cols| >= 1 && r.value.cols[|r.value.cols| - 1] == Column(yLabel, ys)
    ensures r.Ok? && xLabel != yLabel ==> r.value.cols == [Column(xLabel, xs), Column(yLabel, ys)]
  {
    if |xs| != |ys| then Err(ValueError)
    else if xLabel == yLabel then Ok(Columns([Column(yLabel, ys)]))
    else Ok(Columns([Column(xLabel, xs), Column(yLabel, ys)]))
  }

  /** `np.asarray(a) - np.asarray(b)` of two lists: elementwise for equal
      lengths, a one-element list broadcasts, any other pair of lengths
      raises ValueError. */
  function Subtract(a: seq<real>, b: seq<real>): (r: Result<seq<real>>)
    ensures |a| == |b| ==> r.Ok? && |r.value| == |a| && forall i :: 0 <= i < |a| ==> r.value[i] == a[i] - b[i]
    ensures r.Err? <==> |a| != |b| && |a| != 1 && |b| != 1
  {
    if |a| == |b| then Ok(seq(|a|, i requires 0 <= i < |a| => a[i] - b[i]))
    else if |a| == 1 then Ok(seq(|b|, i requires 0 <= i < |b| => a[0] - b[i]))
    else if |b| == 1 then Ok(seq(|a|, i requires 0 <= i < |a| => a[i] - b[0]))
    else Err(ValueError)
  }

  function AbsAll(xs: seq<real>): (r: seq<real>)
    ensures |r| == |xs| && forall i :: 0 <= i < |xs| ==> r[i] == Abs(xs[i])
  {
    seq(|xs|, i requires 0 <= i < |xs| => Abs(xs[i]))
  }

  function Scale(c: real, xs: seq<real>): (r: seq<real>)
    ensures |r| == |xs| && forall i :: 0 <= i < |xs| ==> r[i] == c * xs[i]
  {
    seq(|xs|, i requires 0 <= i < |xs| => c * xs[i])
  }

  const DELTA_SIGMA: string := "delta_sigma"
  const SHEAR_XY_ABS: string := "shear_xy_abs"
  const MOHR_CIRCLE: string := "mohr_circle"
  const GAMMA_XY_ABS: string := "gamma_xy_abs"

  /** The keys that select a derived sheet rather than a pair of series. */
  predicate Generic(yKey: string, xKey: Option<string>)
  {
    yKey != DELTA_SIGMA && yKey != SHEAR_XY_ABS && yKey != MOHR_CIRCLE && xKey != Some(GAMMA_XY_ABS) && xKey.Some?
  }

  /** The generic sheet: both keys present and both lists, truncated to the
      shorter. */
  function SeriesSheet(results: Results, yKey: string, xKey: string, yLabel: string, xLabel: string): Result<Option<Frame>>
  {
    if yKey in results && xKey in results && results[xKey].Series? && results[yKey].Series? then
      var x, y := results[xKey].xs, results[yKey].xs;
      var n := Min(|x|, |y|);
      var f :- Pair(xLabel, x[..n], yLabel, y[..n]);
      Ok(Some(f))
    else Ok(None)
  }

  /** |σ1 − σ3| against the vertical strain, truncated to the shorter. A
      truthy value that is not a list is outside the model and raises
      TypeError here. */
  function DeltaSigmaSheet(results: Results, yLabel: string, xLabel: string): Result<Option<Frame>>
  {
    if !(Truthy(results, "sigma1") && Truthy(results, "sigma3") && Truthy(results, "yy_strain")) then Ok(None)
    else if !(results["sigma1"].Series? && results["sigma3"].Series? && results["yy_strain"].Series?) then Err(TypeError)
    else
      var ds :- Subtract(results["sigma1"].xs, results["sigma3"].xs);
      var yy := results["yy_strain"].xs;
      var n := Min(|ds|, |yy|);
      var f :- Pair(xLabel, yy[..n], yLabel, AbsAll(ds)[..n]);
      Ok(Some(f))
  }

  /** |2·εxy| against |τxy|, not truncated. */
  function ShearSheet(results: Results, yLabel: string, xLabel: string): Result<Option<Frame>>
  {
    if !(Truthy(results, "shear_strain_xy") && Truthy(results, "shear_xy")) then Ok(None)
    else if !(results["shear_strain_xy"].Series? && results["shear_xy"].Series?) then Err(TypeError)
    else
      var f :- Pair(xLabel, AbsAll(Scale(2.0, results["shear_strain_xy"].xs)), yLabel, AbsAll(results["shear_xy"].xs));
      Ok(Some(f))
  }

  /** The Mohr circle of the last σ1 and σ3; `len()` of a truthy non-list
      raises TypeError. */
  function MohrSheet(results: Results): Result<Option<Frame>>
  {
    if !(Truthy(results, "sigma1") && Truthy(results, "sigma3")) then Ok(None)
    else if !(results["sigma1"].Series? && results["sigma3"].Series?) then Err(TypeError)
    else
      var s1, s3 := results["sigma1"].xs, results["sigma3"].xs;
      var a, b := s1[|s1| - 1], s3[|s3| - 1];
      Ok(Some(MohrCircle(0.5 * (a + b), 0.5 * (a - b))))
  }

  /** `_build_sheet_df`. */
  function BuildSheet(results: Results, yKey: string, xKey: Option<string>, yLabel: string, xLabel: string): Result<Option<Frame>>
  {
    if Generic(yKey, xKey) then SeriesSheet(results, yKey, xKey.value, yLabel, xLabel)
    else if yKey == DELTA_SIGMA then DeltaSigmaSheet(results, yLabel, xLabel)
    else if xKey == Some(GAMMA_XY_ABS) && yKey == SHEAR_XY_ABS then ShearSheet(results, yLabel, xLabel)
    else if yKey == MOHR_CIRCLE then MohrSheet(results)
    else Ok(None)
  }

  /** A pair of series gives their common prefix, x column first; a missing
      key or a non-list gives no sheet. */
  lemma SeriesSheetTruncates(results: Results, yKey: string, xKey: string, yLabel: string, xLabel: string)
    requires Generic(yKey, Some(xKey)) && xLabel != yLabel
    ensures var r := BuildSheet(results, yKey, Some(xKey), yLabel, xLabel);
      r.Ok? &&
      (r.value.Some? <==> yKey in results && xKey in results && results[xKey].Series? && results[yKey].Series?) &&
      (r.value.Some? ==>
         var x, y := results[xKey].xs, results[yKey].xs;
         var n := Min(|x|, |y|);
         r.value.value == Columns([Column(xLabel, x[..n]), Column(yLabel, y[..n])]) &&
         (n == |x| || n == |y|))
  {
  }

  /** σ1, σ3 and εyy present as non-empty lists, σ1 and σ3 of equal length. */
  predicate DeltaSigmaSeries(results: Results)
  {
    Truthy(results, "sigma1") && Truthy(results, "sigma3") && Truthy(results, "yy_strain") &&
    results["sigma1"].Series? && results["sigma3"].Series? && results["yy_strain"].Series? &&
    |results["sigma1"].xs| == |results["sigma3"].xs|
  }

  /** The Δσ sheet: no sheet unless σ1, σ3 and εyy are all present and
      truthy; for equal-length σ1 and σ3, |σ1[i] − σ3[i]| beside εyy[i], for
      i below the shorter of the two lengths. */
  lemma DeltaSigmaValues(results: Results, xKey: Option<string>, yLabel: string, xLabel: string)
    ensures !(Truthy(results, "sigma1") && Truthy(results, "sigma3") && Truthy(results, "yy_strain")) ==>
      BuildSheet(results, DELTA_SIGMA, xKey, yLabel, xLabel) == Ok(None)
    ensures DeltaSigmaSeries(results) && xLabel != yLabel ==>
      var r := BuildSheet(results, DELTA_SIGMA, xKey, yLabel, xLabel);
      var s1, s3, yy := results["sigma1"].xs, results["sigma3"].xs, results["yy_strain"].xs;
      var n := Min(|s1|, |yy|);
      r.Ok? && r.value.Some? && r.value.value.Columns? && |r.value.value.cols| == 2 &&
      r.value.value.cols[0] == Column(xLabel, yy[..n]) &&
      r.value.value.cols[1].header == yLabel && |r.value.value.cols[1].values| == n &&
      forall i :: 0 <= i < n ==> r.value.value.cols[1].values[i] == Abs(s1[i] - s3[i])
  {
    assert BuildSheet(results, DELTA_SIGMA, xKey, yLabel, xLabel) == DeltaSigmaSheet(results, yLabel, xLabel);
    if DeltaSigmaSeries(results) && xLabel != yLabel {
      var s1, s3, yy := results["sigma1"].xs, results["sigma3"].xs, results["yy_strain"].xs;
      var ds := Subtract(s1, s3).value;
      var n := Min(|ds|, |yy|);
      assert |AbsAll(ds)[..n]| == n;
      assert DeltaSigmaSheet(results, yLabel, xLabel) == Ok(Some(Columns([Column(xLabel, yy[..n]), Column(yLabel, AbsAll(ds)[..n])])));
    }
  }

  /** The direct-shear sheet: |2·εxy[i]| beside |τxy[i]|; series of
      different lengths make the frame constructor raise ValueError. */
  lemma ShearValues(results: Results, yLabel: string, xLabel: string)
    requires "shear_strain_xy" in results && "shear_xy" in results
    requires results["shear_strain_xy"].Series? && results["shear_xy"].Series?
    requires |results["shear_strain_xy"].xs| > 0 && |results["shear_xy"].xs| > 0
    requires xLabel != yLabel
    ensures var r := BuildSheet(results, SHEAR_XY_ABS, Some(GAMMA_XY_ABS), yLabel, xLabel);
      var exy, txy := results["shear_strain_xy"].xs, results["shear_xy"].xs;
      (r.Ok? <==> |exy| == |txy|) && (r.Err? ==> r.error == ValueError) &&
      (r.Ok? ==>
         r.value.Some? && r.value.value.Columns? && |r.value.value.cols| == 2 &&
         |r.value.value.cols[0].values| == |r.value.value.cols[1].values| == |exy| &&
         forall i :: 0 <= i < |exy| ==>
           r.value.value.cols[0].values[i] == Abs(2.0 * exy[i]) && r.value.value.cols[1].values[i] == Abs(txy[i]))
  {
    assert BuildSheet(results, SHEAR_XY_ABS, Some(GAMMA_XY_ABS), yLabel, xLabel) == ShearSheet(results, yLabel, xLabel);
  }

  /** The Mohr circle is centred at the mean of the last σ1 and σ3 with half
      their difference as radius; missing or empty series give no sheet. */
  lemma MohrCircleOfLast(results: Results, xKey: Option<string>, yLabel: string, xLabel: string)
    ensures var r := BuildSheet(results, MOHR_CIRCLE, xKey, yLabel, xLabel);
      (!(Truthy(results, "sigma1") && Truthy(results, "sigma3")) ==> r == Ok(None)) &&
      (Truthy(results, "sigma1") && Truthy(results, "sigma3") && results["sigma1"].Series? && results["sigma3"].Series? ==>
         var s1, s3 := results["sigma1"].xs, results["sigma3"].xs;
         r.Ok? && r.value.Some? && r.value.value.MohrCircle? &&
         r.value.value.center == (s1[|s1| - 1] + s3[|s3| - 1]) / 2.0 &&
         r.value.value.radius == (s1[|s1| - 1] - s3[|s3| - 1]) / 2.0 &&
         r.value.value.center + r.value.value.radius == s1[|s1| - 1] &&
         r.value.value.center - r.value.value.radius == s3[|s3| - 1])
  {
    assert BuildSheet(results, MOHR_CIRCLE, xKey, yLabel, xLabel) == MohrSheet(results);
  }

  // ------------------------------------------------------------ registry

  /** One registered plot: y key, x key (None for the circle), y label,
      x label. */
  datatype PlotSpec = PlotSpec(yKey: string, xKey: Option<string>, yLabel: string, xLabel: string)

  const STRAIN_YY: string := "Vertical Strain εyy"
  const Q_KPA: string := "q (kPa)"
  const P_KPA: string := "p′ (kPa)"
  const TAU_KPA: string := "τ (kPa)"
  const SIGMA_KPA: string := "σ′ (kPa)"

  /** `PLOT_MAPPING`. */
  function PlotMapping(testType: string): Option<seq<PlotSpec>>
  {
    if testType == "triaxial" then Some([
      PlotSpec(DELTA_SIGMA, Some("yy_strain"), "Δσ = |σ1-σ3| (kPa)", STRAIN_YY),
      PlotSpec("vol_strain", Some("yy_strain"), "Volumetric Strain εv", STRAIN_YY),
      PlotSpec("sigma1", Some("sigma3"), "σ1 (kPa)", "σ3 (kPa)"),
      PlotSpec("von_mises", Some("mean_stress"), Q_KPA, P_KPA),
      PlotSpec(MOHR_CIRCLE, None, TAU_KPA, SIGMA_KPA)])
    else if testType == "direct_shear" then Some([
      PlotSpec(SHEAR_XY_ABS, Some(GAMMA_XY_ABS), "Shear Stress τxy (kPa)", "Shear Strain γxy"),
      PlotSpec("sigma1", Some("sigma3"), "σ1 (kPa)", "σ3 (kPa)"),
      PlotSpec("von_mises", Some("mean_stress"), Q_KPA, P_KPA),
      PlotSpec(MOHR_CIRCLE, None, TAU_KPA, SIGMA_KPA)])
    else if testType == "crs" then Some([
      PlotSpec("sigma_yy", Some("yy_strain"), "σ′yy (kPa)", STRAIN_YY),
      PlotSpec("sigma_yy", Some("sigma_xx"), "σ′yy (kPa)", "σ′xx (kPa)"),
      PlotSpec("von_mises", Some("mean_stress"), Q_KPA, P_KPA),
      PlotSpec(MOHR_CIRCLE, None, TAU_KPA, SIGMA_KPA),
      PlotSpec("yy_strain", Some("time_steps"), STRAIN_YY, "Time (h)")])
    else None
  }

  /** Exactly the three test types are registered, with five, four and five
      plots; the Mohr circle is the last plot of triaxial and direct shear and
      the fourth of CRS, and every plot has distinct labels. */
  lemma RegistryShape(testType: string)
    ensures PlotMapping(testType).Some? <==> testType == "triaxial" || testType == "direct_shear" || testType == "crs"
    ensures PlotMapping(testType).Some? ==>
      var m := PlotMapping(testType).value;
      |m| == (if testType == "direct_shear" then 4 else 5) &&
      m[|m| - 1 - (if testType == "crs" then 1 else 0)].yKey == MOHR_CIRCLE &&
      forall k :: 0 <= k < |m| ==> m[k].xLabel != m[k].yLabel
  {
  }

  // ---------------------------------------------------------------- export

  /** A written sheet. */
  datatype Sheet = Sheet(name: string, frame: Frame)

  /** `f"Plot {idx}"[:31]`. */
  function SheetName(idx: nat): string
  {
    var s := "Plot " + NatToString(idx);
    if |s| > 31 then s[..31] else s
  }

  /** The sheets written for the first `n` plots: a plot gives a sheet
      named after its 1-based position when its frame exists and is not
      empty; the first plot that raises ends the export. */
  function SheetsOf(results: Results, mapping: seq<PlotSpec>, n: nat): Result<seq<Sheet>>
    requires n <= |mapping|
  {
    if n == 0 then Ok([])
    else
      var done :- SheetsOf(results, mapping, n - 1);
      var p := mapping[n - 1];
      var f :- BuildSheet(results, p.yKey, p.xKey, p.yLabel, p.xLabel);
      if f.None? || Empty(f.value) then Ok(done) else Ok(done + [Sheet(SheetName(n), f.value)])
  }

  /** Whether plot number k (1-based) gives a sheet. */
  predicate Written(results: Results, p: PlotSpec)
  {
    var f := BuildSheet(results, p.yKey, p.xKey, p.yLabel, p.xLabel);
    f.Ok? && f.value.Some? && !Empty(f.value.value)
  }

  /** The loop of `export_excel_by_test_type`. */
  method WriteSheets(results: Results, mapping: seq<PlotSpec>) returns (r: Result<seq<Sheet>>, writtenAny: bool)
    ensures r == SheetsOf(results, mapping, |mapping|)
    ensures r.Ok? ==> (writtenAny <==> |r.value| > 0)
  {
    var sheets: seq<Sheet> := [];
    writtenAny := false;
    var i := 0;
    while i < |mapping|
      invariant 0 <= i <= |mapping|
      invariant SheetsOf(results, mapping, i) == Ok(sheets)
      invariant writtenAny <==> |sheets| > 0
    {
      var p := mapping[i];
      var f := BuildSheet(results, p.yKey, p.xKey, p.yLabel, p.xLabel);
      if f.Err? {
        FailureSticks(results, mapping, i + 1);
        return Err(f.error), writtenAny;
      }
      if f.value.Some? && !Empty(f.value.value) {
        sheets := sheets + [Sheet(SheetName(i + 1), f.value.value)];
        writtenAny := true;
      }
      i := i + 1;
    }
    r := Ok(sheets);
  }

  /** Once a plot raises, the export raises the same error. */
  lemma {:induction false} FailureSticks(results: Results, mapping: seq<PlotSpec>, n: nat)
    requires 0 < n <= |mapping|
    requires SheetsOf(results, mapping, n - 1).Ok?
    requires BuildSheet(results, mapping[n - 1].yKey, mapping[n - 1].xKey, mapping[n - 1].yLabel, mapping[n - 1].xLabel).Err?
    ensures SheetsOf(results, mapping, |mapping|) ==
      Err(BuildSheet(results, mapping[n - 1].yKey, mapping[n - 1].xKey, mapping[n - 1].yLabel, mapping[n - 1].xLabel).error)
    decreases |mapping| - n
  {
    if n < |mapping| {
      ErrSticks(results, mapping, n, |mapping|);
    }
  }

  lemma {:induction false} ErrSticks(results: Results, mapping: seq<PlotSpec>, n: nat, m: nat)
    requires 0 < n <= m <= |mapping|
    requires SheetsOf(results, mapping, n).Err?
    ensures SheetsOf(results, mapping, m) == SheetsOf(results, mapping, n)
    decreases m - n
  {
    if m > n {
      ErrSticks(results, mapping, n, m - 1);
    }
  }

  /** The 1-based positions of the true flags: increasing, and exactly
      those. */
  function TruePositions(flags: seq<bool>): (pos: seq<nat>)
    ensures |pos| <= |flags|
    ensures forall j :: 0 <= j < |pos| ==> 1 <= pos[j] <= |flags| && flags[pos[j] - 1]
    ensures forall j, j' :: 0 <= j < j' < |pos| ==> pos[j] < pos[j']
    ensures forall k :: 1 <= k <= |flags| && flags[k - 1] ==> k in pos
  {
    if flags == [] then []
    else
      var init := TruePositions(flags[..|flags| - 1]);
      if flags[|flags| - 1] then init + [|flags|] else init
  }

  /** For each of the first `n` plots, whether it gives a sheet. */
  function WrittenFlags(results: Results, mapping: seq<PlotSpec>, n: nat): (flags: seq<bool>)
    requires n <= |mapping|
    ensures |flags| == n && forall k :: 0 <= k < n ==> flags[k] == Written(results, mapping[k])
  {
    seq(n, k requires 0 <= k < n => Written(results, mapping[k]))
  }

  /** The 1-based positions, among the first `n` plots, of the plots that
      give a sheet: increasing, and exactly those plots. */
  function WrittenPositions(results: Results, mapping: seq<PlotSpec>, n: nat): (pos: seq<nat>)
    requires n <= |mapping|
    ensures |pos| <= n
    ensures forall j :: 0 <= j < |pos| ==> 1 <= pos[j] <= n && Written(results, mapping[pos[j] - 1])
    ensures forall j, j' :: 0 <= j < j' < |pos| ==> pos[j] < pos[j']
    ensures forall k :: 1 <= k <= n && Written(results, mapping[k - 1]) ==> k in pos
  {
    TruePositions(WrittenFlags(results, mapping, n))
  }

  /** The first `n - 1` flags are the flags of the first `n - 1` plots. */
  lemma WrittenFlagsSnoc(results: Results, mapping: seq<PlotSpec>, n: nat)
    requires 0 < n <= |mapping|
    ensures WrittenFlags(results, mapping, n)[..n - 1] == WrittenFlags(results, mapping, n - 1)
  {
  }

  /** The sheet plot number k (1-based) gives. */
  function SheetAt(results: Results, mapping: seq<PlotSpec>, k: nat): Sheet
    requires 1 <= k <= |mapping| && Written(results, mapping[k - 1])
  {
    var p := mapping[k - 1];
    Sheet(SheetName(k), BuildSheet(results, p.yKey, p.xKey, p.yLabel, p.xLabel).value.value)
  }

  /** Sheet j is the sheet of the plot at position `pos[j]`. */
  predicate SheetsMatch(results: Results, mapping: seq<PlotSpec>, ss: seq<Sheet>, pos: seq<nat>)
  {
    |ss| == |pos| &&
    forall j :: 0 <= j < |ss| ==>
      1 <= pos[j] <= |mapping| && Written(results, mapping[pos[j] - 1]) && ss[j] == SheetAt(results, mapping, pos[j])
  }

  lemma SheetsMatchSnoc(results: Results, mapping: seq<PlotSpec>, ss: seq<Sheet>, pos: seq<nat>, k: nat)
    requires SheetsMatch(results, mapping, ss, pos)
    requires 1 <= k <= |mapping| && Written(results, mapping[k - 1])
    ensures SheetsMatch(results, mapping, ss + [SheetAt(results, mapping, k)], pos + [k])
  {
    var ss', pos' := ss + [SheetAt(results, mapping, k)], pos + [k];
    forall j | 0 <= j < |ss'|
      ensures 1 <= pos'[j] <= |mapping| && Written(results, mapping[pos'[j] - 1])
      ensures ss'[j] == SheetAt(results, mapping, pos'[j])
    {
      if j < |ss| {
        assert ss'[j] == ss[j] && pos'[j] == pos[j];
      }
    }
  }

  /** The sheets, in mapping order: sheet j is named "Plot k" after the
      position k of the j-th plot that gives a sheet, and holds that plot's
      frame; plots without a frame or with an empty one give no sheet. */
  lemma {:induction false} SheetsNamedByPosition(results: Results, mapping: seq<PlotSpec>, n: nat)
    requires n <= |mapping|
    requires SheetsOf(results, mapping, n).Ok?
    ensures var ss := SheetsOf(results, mapping, n).value;
      var pos := WrittenPositions(results, mapping, n);
      |ss| == |pos| && forall j :: 0 <= j < |ss| ==> ss[j] == SheetAt(results, mapping, pos[j])
    decreases n
  {
    if n > 0 {
      SheetsNamedByPosition(results, mapping, n - 1);
      SheetsStep(results, mapping, n);
    }
  }

  /** One more plot: its sheet, if it gives one, is appended with its
      position. */
  lemma SheetsStep(results: Results, mapping: seq<PlotSpec>, n: nat)
    requires 0 < n <= |mapping|
    requires SheetsOf(results, mapping, n).Ok?
    requires SheetsOf(results, mapping, n - 1).Ok?
    requires SheetsMatch(results, mapping, SheetsOf(results, mapping, n - 1).value, WrittenPositions(results, mapping, n - 1))
    ensures SheetsMatch(results, mapping, SheetsOf(results, mapping, n).value, WrittenPositions(results, mapping, n))
  {
    var done := SheetsOf(results, mapping, n - 1).value;
    var before := WrittenPositions(results, mapping, n - 1);
    var ss := SheetsOf(results, mapping, n).value;
    var pos := WrittenPositions(results, mapping, n);
    var p := mapping[n - 1];
    var f := BuildSheet(results, p.yKey, p.xKey, p.yLabel, p.xLabel);
    assert f.Ok?;
    WrittenFlagsSnoc(results, mapping, n);
    if Written(results, p) {
      assert ss == done + [SheetAt(results, mapping, n)];
      assert pos == before + [n];
      SheetsMatchSnoc(results, mapping, done, before, n);
    } else {
      assert ss == done;
      assert pos == before;
    }
  }

  /** Names of the first nine plots are never cut. */
  lemma SheetNameShort(idx: nat)
    requires 1 <= idx <= 9
    ensures SheetName(idx) == "Plot " + [DigitChar(idx)]
  {
  }

  /** What the user is shown. */
  datatype Notice = ErrorBox(text: string) | InfoBox(path: string) | WarningBox(text: string)

  const NOTHING_TO_EXPORT: string := "No matching data found to export for this test."

  /** The export's end: the sheets written (if any) and the message. */
  datatype ExportEnd = ExportEnd(sheets: seq<Sheet>, notice: Option<Notice>)

  /** `export_excel_by_test_type`: an unknown test type shows an error and
      writes nothing; without a path the save dialog is asked (`dialog` is
      what it returns) and cancelling writes nothing; an error while
      building a sheet propagates. */
  method ExportExcel(results: Results, testType: string, excelPath: Option<string>, dialog: Option<string>)
    returns (r: Result<ExportEnd>)
    ensures PlotMapping(testType).None? ==> r == Ok(ExportEnd([], Some(ErrorBox("Unknown test type: " + testType))))
    ensures var path := if excelPath.Some? && excelPath.value != "" then excelPath else dialog;
      PlotMapping(testType).Some? && (path.None? || path.value == "") ==> r == Ok(ExportEnd([], None))
    ensures var path := if excelPath.Some? && excelPath.value != "" then excelPath else dialog;
      PlotMapping(testType).Some? && path.Some? && path.value != "" ==>
        var s := SheetsOf(results, PlotMapping(testType).value, |PlotMapping(testType).value|);
        (r.Err? <==> s.Err?) && (r.Err? ==> r.error == s.error) &&
        (r.Ok? ==>
           r.value.sheets == s.value &&
           r.value.notice == Some(if |s.value| > 0 then InfoBox(path.value) else WarningBox(NOTHING_TO_EXPORT)))
  {
    var mapping := PlotMapping(testType);
    if mapping.None? {
      return Ok(ExportEnd([], Some(ErrorBox("Unknown test type: " + testType))));
    }
    var path := excelPath;
    if path.None? || path.value == "" {
      path := dialog;
    }
    if path.None? || path.value == "" {
      return Ok(ExportEnd([], None));
    }
    var sheets, writtenAny := WriteSheets(results, mapping.value);
    if sheets.Err? {
      return Err(sheets.error);
    }
    r := Ok(ExportEnd(sheets.value, Some(if writtenAny then InfoBox(path.value) else WarningBox(NOTHING_TO_EXPORT))));
  }
}
