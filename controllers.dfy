/** What the three controllers share: the rendering of the log messages
    that interpolate values, the Mohr–Coulomb pair they hand to a run, and
    Python's `int()` on a float. */
module ControllerSupport {
  import opened Common
  import opened SimulationInputs

  /** `f"{i}"` of an int. */
  function IntText(i: int): string
  {
    if i < 0 then "-" + NatToString(-i) else NatToString(i)
  }

  /** `f"{x}"` of an optional string: None renders as "None". */
  function OptText(x: Option<string>): string
  {
    if x.Some? then x.value else "None"
  }

  /** `f"{t}"` of the optional index pair. */
  function IndicesText(t: Option<seq<int>>): string
  {
    if t.Some? && |t.value| == 2 then "(" + IntText(t.value[0]) + ", " + IntText(t.value[1]) + ")" else "None"
  }

  function UnknownTestType(t: Option<string>): LogEntry
  {
    Message(WarnLevel, "Unknown test type: " + OptText(t))
  }

  function UnknownDrainage(d: string): LogEntry
  {
    Message(WarnLevel, "Unknown drainage: " + d)
  }

  const SELECT_TEST_TYPE: LogEntry := Message(ErrorLevel, "Please select a test type.")

  function McIndicesLogged(t: Option<seq<int>>): LogEntry
  {
    Message(InfoLevel, "MC indices: " + IndicesText(t))
  }

  /** `_mc_tuple`, written as the controllers write it: None when disabled,
      None when an index is unset, otherwise the pair. */
  function McTuple(enabled: bool, c: Option<int>, phi: Option<int>): (r: Option<seq<int>>)
    ensures r == ToIndices(MohrCoulombOptions(enabled, c, phi))
  {
    if !enabled then None
    else if c.None? || phi.None? then None
    else Some([c.value, phi.value])
  }

  /** `dll_path or ""`. */
  function DllOrEmpty(dllPath: Option<string>): string
  {
    if dllPath.Some? then dllPath.value else ""
  }

  /** `int(x)` on a float: truncation toward zero. */
  function Trunc(x: real): (n: int)
    ensures x >= 0.0 ==> n as real <= x < n as real + 1.0
    ensures x < 0.0 ==> n as real - 1.0 < x <= n as real
  {
    if x >= 0.0 then x.Floor else -((-x).Floor)
  }

  /** A step count truncates to a positive int exactly when it is at least 1,
      so a count in (0, 1) fails the `steps > 0` check. */
  lemma TruncPositive(x: real)
    ensures Trunc(x) > 0 <==> x >= 1.0
  {
  }
}

/** The model's `ElementTestController`: the current test comes from the
    input store, CRS runs carry per-stage lists built from the CRS
    increments, and the latest results and test type are kept. The
    application model (`MainModel`) is not part of this model: the current
    test name, the current record and the CRS record enter as parameters. */
module ElementTestController {
  import opened Common
  import opened SimulationInputs
  import opened SoilTestInputManager
  import opened RunPlan
  import Collector
  import opened CoreRun
  import opened ControllerSupport

  /** `TEST_NAME_TO_TYPE.get(name)`. */
  function NameToType(name: string): (r: Option<string>)
    ensures r.Some? <==> name == TRIAXIAL_NAME || name == DIRECT_SHEAR_NAME || name == CRS_NAME
    ensures r.Some? ==> ValidTestType(r.value)
  {
    if name == TRIAXIAL_NAME then Some(SimulationInputs.TRIAXIAL)
    else if name == DIRECT_SHEAR_NAME then Some(SimulationInputs.DIRECT_SHEAR)
    else if name == CRS_NAME then Some(SimulationInputs.CRS)
    else None
  }

  /** `inputs.validate()` of the current record, whichever kind it is. */
  function ValidateEntry(e: Entry): Outcome
  {
    match e
    case ShearEntry(s) => ValidateShear(s)
    case CrsEntry(c) => ValidateCrs(c)
  }

  function EntryTestType(e: Entry): string
  {
    match e
    case ShearEntry(s) => s.testType
    case CrsEntry(c) => c.testType
  }

  /** The fields the run reads from the current record. */
  datatype Fields = Fields(testType: string, numberOfSteps: int, durationInSeconds: real,
                           maximumStrain: real, initialEffectiveCellPressure: real)

  function EntryFields(e: Entry): Fields
  {
    match e
    case ShearEntry(s) => Fields(s.testType, s.numberOfSteps, s.durationInSeconds, s.maximumStrain, s.initialEffectiveCellPressure)
    case CrsEntry(c) => Fields(c.testType, c.numberOfSteps, c.durationInSeconds, c.maximumStrain, c.initialEffectiveCellPressure)
  }

  /** The stage durations in seconds of the CRS increments. */
  function StageSeconds(incs: seq<StrainIncrement>): seq<real>
  {
    seq(|incs|, i requires 0 <= i < |incs| => HoursToSeconds(incs[i].durationInHours))
  }

  /** The keyword arguments of `RunSimulation(...)`. */
  function SimulationArgs(tt: string, inputs: Entry, crs: CrsInputs, drainage: string, dllPath: Option<string>,
                          udsmNumber: Option<int>, materialParameters: seq<real>, mc: Option<seq<int>>): Inputs
  {
    var f := EntryFields(inputs);
    var incs := crs.strainIncrements;
    var isCrs := tt == SimulationInputs.CRS;
    Inputs(f.testType, Some(DllOrEmpty(dllPath)), udsmNumber, materialParameters,
      if isCrs then PerStage(SoilTestInputManager.Steps(incs)) else Single(f.numberOfSteps),
      f.durationInSeconds, f.maximumStrain, f.initialEffectiveCellPressure, mc, Some(drainage),
      if isCrs then Some(StageSeconds(incs)) else None,
      if isCrs then Some(SoilTestInputManager.Steps(incs)) else None,
      if isCrs then Some(Strains(incs)) else None)
  }

  /** A CRS run gets one duration (hours times 3600), one step count and one
      strain per increment, in the increments' order, and the step list is
      also the step count; any other run gets the record's step count and
      no lists. */
  lemma SimulationArgsLists(tt: string, inputs: Entry, crs: CrsInputs, drainage: string, dllPath: Option<string>,
                            udsmNumber: Option<int>, materialParameters: seq<real>, mc: Option<seq<int>>)
    ensures var a := SimulationArgs(tt, inputs, crs, drainage, dllPath, udsmNumber, materialParameters, mc);
      var incs := crs.strainIncrements;
      (tt == SimulationInputs.CRS ==>
        a.stageDurations.Some? && a.stepCounts.Some? && a.strainIncs.Some? &&
        |a.stageDurations.value| == |a.stepCounts.value| == |a.strainIncs.value| == |incs| &&
        (forall i :: 0 <= i < |incs| ==>
          a.stageDurations.value[i] == incs[i].durationInHours * 3600.0 &&
          a.stepCounts.value[i] == incs[i].steps && a.strainIncs.value[i] == incs[i].strainIncrement) &&
        a.numSteps == PerStage(a.stepCounts.value)) &&
      (tt != SimulationInputs.CRS ==>
        a.stageDurations.None? && a.stepCounts.None? && a.strainIncs.None? &&
        a.numSteps == Single(EntryFields(inputs).numberOfSteps)) &&
      a.testType == EntryTestType(inputs) && a.cohesionPhiIndices == mc && a.drainage == Some(drainage)
  {
  }

  /** What `run` leaves behind. */
  datatype RunState = RunState(latestResults: Option<Collector.Results>, latestTestType: Option<string>, log: seq<LogEntry>)
  datatype RunEnd = RunEnd(state: RunState, ok: bool)

  const HEADLESS: LogEntry := Message(InfoLevel, "No plotter was provided; using a no-op plotter (headless run).")

  /** `_render`: without a plotter an info line and nothing else; otherwise
      the plot call of the test type, which may itself raise. */
  function RenderOutcome(hasPlotter: bool, testType: string, res: Collector.Results, plot: PlotCall -> Outcome): Outcome
  {
    if !hasPlotter then Pass
    else match Render(testType, res)
      case Err(e) => Fail(e)
      case Ok(call) => plot(call)
  }

  /** `run`: the test type of the current name, validation, then the
      simulation, the results, the plot and the test type. `simulate` is
      `sim.run()` followed by `sim.post_process_results()`. */
  function RunStep(st: RunState, name: string, inputs: Entry, crs: CrsInputs, drainage: string, mc: Option<seq<int>>,
                   dllPath: Option<string>, udsmNumber: Option<int>, materialParameters: seq<real>,
                   hasPlotter: bool, simulate: Inputs -> Result<Collector.Results>, plot: PlotCall -> Outcome): RunEnd
  {
    var tt := NameToType(name);
    if tt.None? then
      RunEnd(st.(log := st.log + [UnknownTestType(tt), SELECT_TEST_TYPE]), false)
    else match ValidateEntry(inputs)
      case Fail(e) =>
        RunEnd(st.(log := st.log + [Message(ErrorLevel, "Calculation stopped due to invalid input."), Raised(ErrorLevel, "", e)]), false)
      case Pass =>
        var log1 := st.log + [McIndicesLogged(mc)];
        var args := SimulationArgs(tt.value, inputs, crs, drainage, dllPath, udsmNumber, materialParameters, mc);
        match simulate(args)
        case Err(e) => RunEnd(st.(log := log1 + [Raised(ErrorLevel, "Simulation failed: ", e)]), false)
        case Ok(res) =>
          var log2 := log1 + (if hasPlotter then [] else [HEADLESS]);
          match RenderOutcome(hasPlotter, EntryTestType(inputs), res, plot)
          case Fail(e) =>
            RunEnd(RunState(Some(res), st.latestTestType, log2 + [Raised(ErrorLevel, "Simulation failed: ", e)]), false)
          case Pass => RunEnd(RunState(Some(res), Some(EntryTestType(inputs)), log2), true)
  }

  /** Nothing is simulated for an unknown test name or invalid inputs: the
      end does not depend on the simulation, it is False, and the latest
      results and test type stay. */
  lemma RunRejectsBeforeSimulation(st: RunState, name: string, inputs: Entry, crs: CrsInputs, drainage: string,
                                   mc: Option<seq<int>>, dllPath: Option<string>, udsmNumber: Option<int>,
                                   materialParameters: seq<real>, hasPlotter: bool,
                                   simulate: Inputs -> Result<Collector.Results>, other: Inputs -> Result<Collector.Results>,
                                   plot: PlotCall -> Outcome)
    requires NameToType(name).None? || ValidateEntry(inputs).Fail?
    ensures var e := RunStep(st, name, inputs, crs, drainage, mc, dllPath, udsmNumber, materialParameters, hasPlotter, simulate, plot);
      !e.ok && e.state.latestResults == st.latestResults && e.state.latestTestType == st.latestTestType &&
      e == RunStep(st, name, inputs, crs, drainage, mc, dllPath, udsmNumber, materialParameters, hasPlotter, other, plot)
    ensures NameToType(name).None? ==>
      RunStep(st, name, inputs, crs, drainage, mc, dllPath, udsmNumber, materialParameters, hasPlotter, simulate, plot).state.log ==
      st.log + [UnknownTestType(None), SELECT_TEST_TYPE]
  {
  }

  /** A run that returns True stored the simulation's results and the
      record's test type; a run that returns False kept the previous test
      type, and kept the previous results unless the simulation itself
      succeeded (a failing plot comes after the results are stored). */
  lemma RunUpdatesLatest(st: RunState, name: string, inputs: Entry, crs: CrsInputs, drainage: string,
                         mc: Option<seq<int>>, dllPath: Option<string>, udsmNumber: Option<int>,
                         materialParameters: seq<real>, hasPlotter: bool,
                         simulate: Inputs -> Result<Collector.Results>, plot: PlotCall -> Outcome)
    ensures var e := RunStep(st, name, inputs, crs, drainage, mc, dllPath, udsmNumber, materialParameters, hasPlotter, simulate, plot);
      var tt := NameToType(name);
      var ran := tt.Some? && ValidateEntry(inputs).Pass? &&
        simulate(SimulationArgs(tt.value, inputs, crs, drainage, dllPath, udsmNumber, materialParameters, mc)).Ok?;
      (e.ok ==>
         ran && e.state.latestTestType == Some(EntryTestType(inputs)) &&
         e.state.latestResults == Some(simulate(SimulationArgs(tt.value, inputs, crs, drainage, dllPath, udsmNumber, materialParameters, mc)).value)) &&
      (!e.ok ==> e.state.latestTestType == st.latestTestType) &&
      (!ran ==> e.state.latestResults == st.latestResults) &&
      (ran && !hasPlotter ==> e.ok)
  {
  }

  /** A headless run of a valid current test whose simulation succeeds
      returns True, whatever the test type of the record. */
  lemma HeadlessRunSucceeds(st: RunState, name: string, inputs: Entry, crs: CrsInputs, drainage: string,
                            mc: Option<seq<int>>, dllPath: Option<string>, udsmNumber: Option<int>,
                            materialParameters: seq<real>, simulate: Inputs -> Result<Collector.Results>,
                            plot: PlotCall -> Outcome)
    requires NameToType(name).Some? && ValidateEntry(inputs).Pass?
    requires simulate(SimulationArgs(NameToType(name).value, inputs, crs, drainage, dllPath, udsmNumber, materialParameters, mc)).Ok?
    ensures var e := RunStep(st, name, inputs, crs, drainage, mc, dllPath, udsmNumber, materialParameters, false, simulate, plot);
      e.ok && HEADLESS in e.state.log
  {
  }

  class ElementTestController {
    var latestResults: Option<Collector.Results>
    var latestTestType: Option<string>
    var mcEnabled: bool
    var mcC: Option<int>
    var mcPhi: Option<int>
    var drainage: string
    var log: seq<LogEntry>

    constructor()
      ensures latestResults == None && latestTestType == None
      ensures !mcEnabled && mcC == None && mcPhi == None && drainage == DRAINED && log == []
    {
      latestResults := None;
      latestTestType := None;
      mcEnabled := false;
      mcC := None;
      mcPhi := None;
      drainage := DRAINED;
      log := [];
    }

    /** `set_mohr_enabled`: the flag and an info line; the indices stay. */
    method SetMohrEnabled(enabled: bool)
      modifies this
      ensures mcEnabled == enabled && mcC == old(mcC) && mcPhi == old(mcPhi)
      ensures log == old(log) + [Message(InfoLevel, if enabled then "Mohr-Coulomb model enabled." else "Mohr-Coulomb model disabled.")]
      ensures drainage == old(drainage) && latestResults == old(latestResults) && latestTestType == old(latestTestType)
    {
      mcEnabled := enabled;
      log := log + [Message(InfoLevel, if enabled then "Mohr-Coulomb model enabled." else "Mohr-Coulomb model disabled.")];
    }

    /** `set_mohr_mapping`: the indices; the flag stays. */
    method SetMohrMapping(c: Option<int>, phi: Option<int>)
      modifies this
      ensures mcC == c && mcPhi == phi && mcEnabled == old(mcEnabled)
      ensures log == old(log) && drainage == old(drainage)
      ensures latestResults == old(latestResults) && latestTestType == old(latestTestType)
    {
      mcC := c;
      mcPhi := phi;
    }

    /** `set_drainage`: a value outside drained/undrained is warned about and
        ignored. */
    method SetDrainage(d: string)
      modifies this
      ensures drainage == if ValidDrainage(d) then d else old(drainage)
      ensures log == old(log) + (if ValidDrainage(d) then [] else [UnknownDrainage(d)])
      ensures mcEnabled == old(mcEnabled) && mcC == old(mcC) && mcPhi == old(mcPhi)
      ensures latestResults == old(latestResults) && latestTestType == old(latestTestType)
    {
      if !ValidDrainage(d) {
        log := log + [UnknownDrainage(d)];
        return;
      }
      drainage := d;
    }

    /** `run`. */
    method Run(name: string, inputs: Entry, crs: CrsInputs, dllPath: Option<string>, udsmNumber: Option<int>,
               materialParameters: seq<real>, hasPlotter: bool,
               simulate: Inputs -> Result<Collector.Results>, plot: PlotCall -> Outcome) returns (ok: bool)
      modifies this
      ensures var e := RunStep(old(RunState(latestResults, latestTestType, log)), name, inputs, crs, old(drainage),
                               McTuple(old(mcEnabled), old(mcC), old(mcPhi)), dllPath, udsmNumber, materialParameters,
                               hasPlotter, simulate, plot);
        ok == e.ok && RunState(latestResults, latestTestType, log) == e.state
      ensures mcEnabled == old(mcEnabled) && mcC == old(mcC) && mcPhi == old(mcPhi) && drainage == old(drainage)
    {
      var st := RunState(latestResults, latestTestType, log);
      var mc := McTuple(mcEnabled, mcC, mcPhi);
      ghost var e := RunStep(st, name, inputs, crs, drainage, mc, dllPath, udsmNumber, materialParameters,
                             hasPlotter, simulate, plot);
      var tt := NameToType(name);
      if tt.None? {
        log := log + [UnknownTestType(tt), SELECT_TEST_TYPE];
        assert e == RunEnd(RunState(latestResults, latestTestType, log), false);
        return false;
      }
      var valid := ValidateEntry(inputs);
      if valid.Fail? {
        log := log + [Message(ErrorLevel, "Calculation stopped due to invalid input."), Raised(ErrorLevel, "", valid.error)];
        assert e == RunEnd(RunState(latestResults, latestTestType, log), false);
        return false;
      }
      log := log + [McIndicesLogged(mc)];
      var args := SimulationArgs(tt.value, inputs, crs, drainage, dllPath, udsmNumber, materialParameters, mc);
      var res := simulate(args);
      if res.Err? {
        log := log + [Raised(ErrorLevel, "Simulation failed: ", res.error)];
        assert e == RunEnd(RunState(latestResults, latestTestType, log), false);
        return false;
      }
      latestResults := Some(res.value);
      if !hasPlotter {
        log := log + [HEADLESS];
      }
      var shown := RenderOutcome(hasPlotter, EntryTestType(inputs), res.value, plot);
      if shown.Fail? {
        log := log + [Raised(ErrorLevel, "Simulation failed: ", shown.error)];
        assert e == RunEnd(RunState(latestResults, latestTestType, log), false);
        return false;
      }
      latestTestType := Some(EntryTestType(inputs));
      assert e == RunEnd(RunState(latestResults, latestTestType, log), true);
      ok := true;
    }
  }
}

/** The Tk front end's `ElementTestController` (ui/): it holds its own test
    type, builds the core `SimulationInputs` from the entered values and
    runs the core pipeline; a failing simulation is logged and re-raised. */
module UiElementTestController {
  import opened Common
  import opened SimulationInputs
  import opened RunPlan
  import opened ControllerSupport

  /** The front end's valid test types: CRS is not among them. */
  predicate UiValidTestType(t: Option<string>)
  {
    t == Some(SimulationInputs.TRIAXIAL) || t == Some(SimulationInputs.DIRECT_SHEAR)
  }

  /** `test_type or self._test_type`. */
  function Chosen(arg: Option<string>, stored: Option<string>): Option<string>
  {
    if arg.Some? && arg.value != "" then arg else stored
  }

  /** The record `run` validates: `int(n_steps)` steps, no stress increment. */
  function RunInputs(tt: string, epsMax: real, sigmaInit: real, nSteps: real, duration: real, drainage: string,
                     mcEnabled: bool, c: Option<int>, phi: Option<int>): CoreSimulationInputs
  {
    CoreSimulationInputs(tt, epsMax, sigmaInit, 0.0, Trunc(nSteps), duration, drainage, MohrCoulombOptions(mcEnabled, c, phi))
  }

  /** The keyword arguments of `RunSimulation.run_simulation(...)`: the
      per-stage lists are never set, so the step count is the record's. */
  function CoreArgs(x: CoreSimulationInputs, dllPath: Option<string>, index: Option<int>, materialParameters: seq<real>): Inputs
  {
    Inputs(x.testType, Some(DllOrEmpty(dllPath)), index, materialParameters, Single(x.numberOfSteps), x.duration,
      x.maximumStrain, x.initialEffectiveCellPressure, ToIndices(x.mohrCoulomb), Some(x.drainage), None, None, None)
  }

  class ElementTestController {
    var mcEnabled: bool
    var mcC: Option<int>
    var mcPhi: Option<int>
    var testType: Option<string>
    var drainage: string
    var log: seq<LogEntry>

    constructor()
      ensures !mcEnabled && mcC == None && mcPhi == None && testType == None && drainage == DRAINED && log == []
    {
      mcEnabled := false;
      mcC := None;
      mcPhi := None;
      testType := None;
      drainage := DRAINED;
      log := [];
    }

    method SetMohrEnabled(enabled: bool)
      modifies this
      ensures mcEnabled == enabled && mcC == old(mcC) && mcPhi == old(mcPhi)
      ensures testType == old(testType) && drainage == old(drainage)
      ensures log == old(log) + [Message(InfoLevel, if enabled then "Mohr-Coulomb model enabled." else "Mohr-Coulomb model disabled.")]
    {
      mcEnabled := enabled;
      log := log + [Message(InfoLevel, if enabled then "Mohr-Coulomb model enabled." else "Mohr-Coulomb model disabled.")];
    }

    method SetMohrMapping(c: Option<int>, phi: Option<int>)
      modifies this
      ensures mcC == c && mcPhi == phi && mcEnabled == old(mcEnabled)
      ensures testType == old(testType) && drainage == old(drainage) && log == old(log)
    {
      mcC := c;
      mcPhi := phi;
    }

    /** `set_test_type`: only triaxial and direct_shear are kept; anything
        else, "crs" included, is warned about and ignored. */
    method SetTestType(t: string)
      modifies this
      ensures testType == if UiValidTestType(Some(t)) then Some(t) else old(testType)
      ensures log == old(log) + (if UiValidTestType(Some(t)) then [] else [UnknownTestType(Some(t))])
      ensures mcEnabled == old(mcEnabled) && mcC == old(mcC) && mcPhi == old(mcPhi) && drainage == old(drainage)
    {
      if !UiValidTestType(Some(t)) {
        log := log + [UnknownTestType(Some(t))];
        return;
      }
      testType := Some(t);
    }

    /** `set_drainage`. */
    method SetDrainage(d: string)
      modifies this
      ensures drainage == if ValidDrainage(d) then d else old(drainage)
      ensures log == old(log) + (if ValidDrainage(d) then [] else [UnknownDrainage(d)])
      ensures mcEnabled == old(mcEnabled) && mcC == old(mcC) && mcPhi == old(mcPhi) && testType == old(testType)
    {
      if !ValidDrainage(d) {
        log := log + [UnknownDrainage(d)];
        return;
      }
      drainage := d;
    }

    /** `run`: an invalid type or invalid inputs return (None) after the
        log lines, with no simulation; a simulation that raises is logged
        and raised again. `simulate` is the core pipeline's run. */
    method Run(arg: Option<string>, dllPath: Option<string>, index: Option<int>, materialParameters: seq<real>,
               sigmaInit: real, epsMax: real, nSteps: real, duration: real,
               simulate: Inputs -> Outcome) returns (r: Outcome, simulated: Option<Inputs>)
      modifies this
      ensures var tt := Chosen(arg, old(testType));
        var x := RunInputs(if tt.Some? then tt.value else "", epsMax, sigmaInit, nSteps, duration, old(drainage),
                           old(mcEnabled), old(mcC), old(mcPhi));
        if !UiValidTestType(tt) then
          r == Pass && simulated == None && log == old(log) + [UnknownTestType(tt), SELECT_TEST_TYPE]
        else if ValidateCore(x).Fail? then
          r == Pass && simulated == None && log == old(log) + [Raised(ErrorLevel, "", ValidateCore(x).error)]
        else
          simulated == Some(CoreArgs(x, dllPath, index, materialParameters)) &&
          r == simulate(simulated.value) &&
          log == old(log) + [McIndicesLogged(McTuple(old(mcEnabled), old(mcC), old(mcPhi)))] +
                 (if r.Fail? then [Raised(ErrorLevel, "Simulation failed: ", r.error)] else [])
      ensures mcEnabled == old(mcEnabled) && mcC == old(mcC) && mcPhi == old(mcPhi)
      ensures testType == old(testType) && drainage == old(drainage)
    {
      var tt := Chosen(arg, testType);
      if !UiValidTestType(tt) {
        log := log + [UnknownTestType(tt), SELECT_TEST_TYPE];
        return Pass, None;
      }
      var x := RunInputs(tt.value, epsMax, sigmaInit, nSteps, duration, drainage, mcEnabled, mcC, mcPhi);
      var valid := ValidateCore(x);
      if valid.Fail? {
        log := log + [Raised(ErrorLevel, "", valid.error)];
        return Pass, None;
      }
      log := log + [McIndicesLogged(McTuple(mcEnabled, mcC, mcPhi))];
      var args := CoreArgs(x, dllPath, index, materialParameters);
      simulated := Some(args);
      r := simulate(args);
      if r.Fail? {
        log := log + [Raised(ErrorLevel, "Simulation failed: ", r.error)];
      }
    }
  }

  /** A run that gets to the simulation passes it a single step count, the
      truncated `n_steps`, which is positive; the duration as end time; the
      Mohr–Coulomb pair of the controller's state; and no stage lists. */
  lemma CoreArgsOfValidRun(tt: string, epsMax: real, sigmaInit: real, nSteps: real, duration: real, drainage: string,
                           mcEnabled: bool, c: Option<int>, phi: Option<int>, dllPath: Option<string>, index: Option<int>,
                           materialParameters: seq<real>)
    requires ValidateCore(RunInputs(tt, epsMax, sigmaInit, nSteps, duration, drainage, mcEnabled, c, phi)).Pass?
    ensures var a := CoreArgs(RunInputs(tt, epsMax, sigmaInit, nSteps, duration, drainage, mcEnabled, c, phi), dllPath, index, materialParameters);
      a.numSteps == Single(Trunc(nSteps)) && Trunc(nSteps) > 0 && nSteps >= 1.0 && a.endTime == duration &&
      a.cohesionPhiIndices == McTuple(mcEnabled, c, phi) &&
      a.stageDurations.None? && a.stepCounts.None? && a.strainIncs.None? && a.drainage == Some(drainage)
  {
    TruncPositive(nSteps);
  }

  /** A step count below one never reaches the simulation: `int()` makes it
      zero or less and validation rejects it. */
  lemma FractionalStepsRejected(tt: string, epsMax: real, sigmaInit: real, nSteps: real, duration: real, drainage: string,
                                mcEnabled: bool, c: Option<int>, phi: Option<int>)
    requires nSteps < 1.0
    ensures ValidateCore(RunInputs(tt, epsMax, sigmaInit, nSteps, duration, drainage, mcEnabled, c, phi)) == Fail(ValueError)
  {
    TruncPositive(nSteps);
  }
}

/** The older front-end controller (ui/controller.py): no validation, the
    step count passed through as entered, and the module-level
    `run_simulation` interface with its plotter argument. */
module UiController {
  import opened Common
  import opened ControllerSupport

  /** The keyword arguments of `run_simulation(...)`. */
  datatype LegacyArgs = LegacyArgs(
    testType: string,
    dllPath: string,
    index: Option<int>,
    materialParameters: seq<real>,
    numSteps: real,
    endTime: real,
    maximumStrain: real,
    initialEffectiveCellPressure: real,
    cohesionPhiIndices: Option<seq<int>>,
    hasPlotter: bool)

  class ElementTestController {
    var mcEnabled: bool
    var mcC: Option<int>
    var mcPhi: Option<int>
    var log: seq<LogEntry>

    constructor()
      ensures !mcEnabled && mcC == None && mcPhi == None && log == []
    {
      mcEnabled := false;
      mcC := None;
      mcPhi := None;
      log := [];
    }

    /** `set_mohr_enabled`: note the shorter message of this controller. */
    method SetMohrEnabled(enabled: bool)
      modifies this
      ensures mcEnabled == enabled && mcC == old(mcC) && mcPhi == old(mcPhi)
      ensures log == old(log) + [Message(InfoLevel, if enabled then "Mohr-Coulomb enabled." else "Mohr-Coulomb disabled.")]
    {
      mcEnabled := enabled;
      log := log + [Message(InfoLevel, if enabled then "Mohr-Coulomb enabled." else "Mohr-Coulomb disabled.")];
    }

    method SetMohrMapping(c: Option<int>, phi: Option<int>)
      modifies this
      ensures mcC == c && mcPhi == phi && mcEnabled == old(mcEnabled) && log == old(log)
    {
      mcC := c;
      mcPhi := phi;
    }

    /** `run`: the info line, then the simulation with the entered values;
        a failure is logged and raised again. */
    method Run(testType: string, dllPath: Option<string>, index: Option<int>, materialParameters: seq<real>,
               sigmaInit: real, epsMax: real, nSteps: real, duration: real, hasPlotter: bool,
               simulate: LegacyArgs -> Outcome) returns (r: Outcome, args: LegacyArgs)
      modifies this
      ensures args == LegacyArgs(testType, DllOrEmpty(dllPath), index, materialParameters, nSteps, duration, epsMax, sigmaInit,
                                 McTuple(old(mcEnabled), old(mcC), old(mcPhi)), hasPlotter)
      ensures r == simulate(args)
      ensures log == old(log) + [McIndicesLogged(args.cohesionPhiIndices)] +
                     (if r.Fail? then [Raised(ErrorLevel, "Simulation failed: ", r.error)] else [])
      ensures mcEnabled == old(mcEnabled) && mcC == old(mcC) && mcPhi == old(mcPhi)
    {
      var mc := McTuple(mcEnabled, mcC, mcPhi);
      log := log + [McIndicesLogged(mc)];
      args := LegacyArgs(testType, DllOrEmpty(dllPath), index, materialParameters, nSteps, duration, epsMax, sigmaInit,
                         mc, hasPlotter);
      r := simulate(args);
      if r.Fail? {
        log := log + [Raised(ErrorLevel, "Simulation failed: ", r.error)];
      }
    }
  }
}
