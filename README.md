# Kratos element test: a Dafny model of the data logic

This project models the data logic of the soil element-test application. It
covers everything around the geomechanics solver call, but not the call
itself. The application runs triaxial, direct-shear and constant-rate-of-strain
(CRS) element tests. Modelled here:

- **Result collection.** The parsed GiD result file is its input. Records are
  sorted into buckets, with a tri3 Gauss-point filter for the scalar stresses.
  Each stage reduces to stress tensors, shear stress, strains, scalar stresses
  and σxx/σyy. The stages are concatenated, and the yy strain carries a
  cumulative offset across stage boundaries. Principal stresses come from an
  eigenvalue function that is a parameter. Cohesion and friction angle are
  read by 1-based index. This part covers the model and core collectors and
  the post-processing loop of the core generic test runner (`Collector`,
  `Extract`, `GidOutput`, `Groups`, `StrainOffset`, `Principal`,
  `CohesionPhi`).
- **Input-deck editing.** The project-parameter file is an in-memory JSON
  value. Its text is a token sequence with a `Loads(Dump(j)) == j` round
  trip. The mesh file is a character string with `$placeholder` tokens. Each
  editor is a class whose methods rewrite the `rawText` field, write `file`
  (the file on disk) and append to `log` (the logger callback's calls)
  (`Json`, `ProjectParameters`, `ParameterEditor`, `CoreParameterEditor`,
  `Mdpa`).
- **Run configuration.** This covers:
  - template selection and file copying;
  - CRS stage appending;
  - cumulative stage end times;
  - the project-parameter and mesh edits each run makes;
  - the constitutive-law properties;
  - output file names;
  - the result dictionary and renderer dispatch.

  This holds for the model pipeline, the core pipeline and the legacy
  top-level `run_simulation` (`RunPlan`, `RunPipeline`, `CoreRun`,
  `LegacyRun`). The calls a run makes on its editors are modelled as a plan,
  meaning the list of editor calls in order.
- **Inputs and validation.** This covers the simulation-input records and
  their `validate`, the Mohr–Coulomb index options, and the CRS totals kept
  by the soil-test input manager (`SimulationInputs`,
  `SoilTestInputManager`).
- **Controllers.** This covers the Mohr–Coulomb flag and index pair, the
  drainage and test-type setters, and the guards and argument building of
  `run` in the three controllers (`ControllerSupport`,
  `ElementTestController`, `UiElementTestController`, `UiController`).
- **Stores and export.** This covers the result and material-type stores,
  the material-input helpers, and the shaping of the exported Excel sheets
  (`ResultManager`, `MaterialInputManager`, `MaterialInputDataUtils`,
  `ResultExporter`).

Python exceptions are modelled as `Common.Result`/`Common.Outcome` values
carrying the exception class. They are never modelled as preconditions.
Floats are `real`.

## Model

| member | source | states |
|---|---|---|
| CohesionPhi.GetCohesionPhi | kratos_element_test/core/pipeline/result_collector.py:241-247 | (None, None) for absent or empty indices; otherwise the pair at the 1-based positions, with Python's negative indexing; a pair that cannot be unpacked is ValueError, an index out of range IndexError; likewise at kratos_element_test/core/pipeline/run_simulation.py:289-295; likewise at kratos_element_test/run_simulation.py:76-80 |
| CohesionPhi.OneBasedLookup | kratos_element_test/core/pipeline/result_collector.py:246-247 | indices within 1..n read exactly parameters[c-1] and parameters[phi-1] |
| CohesionPhi.IndexPastEndRaises | kratos_element_test/core/pipeline/result_collector.py:247 | an index past the end raises IndexError, and it is not caught |
| CohesionPhi.IndexZeroReadsLast | kratos_element_test/core/pipeline/result_collector.py:247 | index 0 reads the last parameter |
| CohesionPhi.RegressionValues | kratos_element_test/model/test/test_result_collector.py:40-69 | [1, 2, 3, 4] with (3, 4) gives (3.0, 4.0); the empty tuple gives (None, None) |
| GidOutput.FirstValueOrNone | kratos_element_test/model/pipeline/result_collector.py:137-140 | values[0]["value"][0] when the record has values, None otherwise; TypeError/KeyError on malformed records |
| GidOutput.Tri3Only | kratos_element_test/model/pipeline/result_collector.py:131-135 | keeps exactly the records whose every point value is a list of three, in order |
| GidOutput.CategorizeAllAppends | kratos_element_test/model/pipeline/result_collector.py:114-129 | one result name's records are appended to its own bucket only, the scalar buckets through the tri3 filter |
| GidOutput.BucketedIsSelect | kratos_element_test/model/pipeline/result_collector.py:114-135 | each bucket equals the reference selection of its result name in entry order; unknown names are dropped |
| GidOutput.ReadResults | kratos_element_test/model/pipeline/result_collector.py:81-112 | a missing file logs the warning "Missing result file: " with its path and gives six empty lists; otherwise nothing is logged and the result is the buckets of the reference selection and the reader's time steps; likewise at kratos_element_test/core/pipeline/generic_test_runner.py:124-140 |
| Extract.RecordVector | kratos_element_test/model/pipeline/result_collector.py:144-151 | a record is skipped (no values, or a None value when skipping) or contributes its vector; a short or non-list vector raises |
| Extract.VectorsOfWellFormed | kratos_element_test/model/pipeline/result_collector.py:142-162 | well-formed records never fail and every record contributes one vector |
| Extract.TensorIsSymmetric | kratos_element_test/model/pipeline/result_collector.py:152-158 | the tensor is [[s0,s3,s5],[s3,s1,s4],[s5,s4,s2]] and symmetric |
| Extract.ExtractStressTensors | kratos_element_test/model/pipeline/result_collector.py:142-162 | the loop returns the tensors of the contributing records grouped by time |
| Extract.StressTensorsSnoc | kratos_element_test/model/pipeline/result_collector.py:144-161 | one more record appends its symmetric tensor under its time when it contributes a vector, and leaves the groups unchanged otherwise |
| Extract.StressTensorsErr | kratos_element_test/model/pipeline/result_collector.py:150 | the first record whose value raises decides the exception of the whole extraction |
| Extract.TensorsGroupedByTime | kratos_element_test/model/pipeline/result_collector.py:159-161 | tensors sit under their record's time in record order; times are listed by first appearance |
| Extract.ExtractShearStressXy | kratos_element_test/model/pipeline/result_collector.py:164-175 | component 3 of every contributing vector, in order |
| Extract.ComputeStrains | kratos_element_test/model/pipeline/result_collector.py:177-192 | per contributing record, yy = e1, vol = e0+e1+e2, xy = e3; the three series have equal length; likewise at kratos_element_test/core/pipeline/generic_test_runner.py:193-203 |
| Extract.ScalarStressesOfTri3 | kratos_element_test/model/pipeline/result_collector.py:194-195 | on tri3-filtered records the scalar reduction never fails; value j is `items[1]` of the first point of the j-th record that has values, in record order, and there are exactly as many values as such records |
| Extract.ScalarStressesOneEach | kratos_element_test/core/pipeline/result_collector.py:199-200 | one scalar per record with values, in order |
| Extract.ExtractSigmaXxYy | kratos_element_test/model/pipeline/result_collector.py:197-207 | components 0 and 1 of the same records, so the two series have equal length; likewise at kratos_element_test/core/pipeline/generic_test_runner.py:208-216 |
| Groups.ExtendGet | kratos_element_test/model/pipeline/result_collector.py:45-46 | setdefault/extend appends to the list under t only, and lists a new t last |
| Groups.MergeGet | kratos_element_test/model/pipeline/result_collector.py:45-46 | merging appends, under every key, the later list after the earlier one |
| Groups.ExtendAll | kratos_element_test/model/pipeline/result_collector.py:45-46 | the merge loop returns the merge |
| Groups.FromPairsContents | kratos_element_test/model/pipeline/result_collector.py:159-161 | each key holds its values in pair order; keys in order of first occurrence |
| StrainOffset.ApplyCumulativeStrainOffset | kratos_element_test/model/pipeline/result_collector.py:209-221 | the loop returns the stitched series; likewise at kratos_element_test/core/pipeline/result_collector.py:214-226 |
| StrainOffset.FinalOffsetIsLast | kratos_element_test/model/pipeline/result_collector.py:216-218 | the offset left behind is the last stitched value, or the start when all stages are empty |
| StrainOffset.StitchSnoc | kratos_element_test/core/pipeline/generic_test_runner.py:58-64 | a later stage is appended shifted by the last stitched value so far (0.0 when none), so the runner's rule gives the collectors' series |
| StrainOffset.StitchLength | kratos_element_test/model/pipeline/result_collector.py:215-219 | the stitched length is the sum of the stage lengths |
| StrainOffset.FirstStageUnchanged | kratos_element_test/model/pipeline/result_collector.py:212-216 | the first stage is unchanged |
| StrainOffset.EmptyStageNeutral | kratos_element_test/model/pipeline/result_collector.py:217-218 | an empty stage leaves the offset and the series unchanged |
| StrainOffset.TwoStageRegression | kratos_element_test/model/test/test_result_collector.py:71-108 | two copies of [0, -0.05, …, -0.2] stitch to [0, …, -0.2, -0.2, …, -0.4] |
| Principal.PrincipalStressesInOrder | kratos_element_test/model/pipeline/result_collector.py:227-233 | one (σ1, σ3) pair per visited tensor, σ1 the minimum and σ3 the maximum eigenvalue, σ1 ≤ σ3 |
| Principal.CalculatePrincipalStresses | kratos_element_test/model/pipeline/result_collector.py:224-233 | keys in ascending time order; exactly one pair per tensor of the dictionary; likewise at kratos_element_test/core/pipeline/run_simulation.py:279-287 |
| Principal.CalculatePrincipalStressesLegacy | kratos_element_test/run_simulation.py:67-74 | keys in insertion order; one pair per tensor |
| Principal.InKeyOrderPermutation | kratos_element_test/model/pipeline/result_collector.py:228 | visiting the keys in another order visits the same multiset of tensors |
| Principal.SortReals | kratos_element_test/model/pipeline/result_collector.py:228 | `sorted` gives an ascending permutation of the keys |
| Principal.Min3 | kratos_element_test/model/pipeline/result_collector.py:230 | the minimum is one of the three and below each |
| Principal.Max3 | kratos_element_test/model/pipeline/result_collector.py:232 | the maximum is one of the three and above each |
| Collector.ReduceStageResults | kratos_element_test/model/pipeline/result_collector.py:35-43 | one stage reduced extractor by extractor; the first failing one decides the exception; the log is the stage's reading warning |
| Collector.ReduceAllAt | kratos_element_test/model/pipeline/result_collector.py:34-43 | in a successful collection, stage k is what stage k's file reduces to |
| Collector.ConcatIsFlatten | kratos_element_test/model/pipeline/result_collector.py:48-55 | extending stage by stage keeps every value of every stage, in stage order |
| Collector.MergeTensorsGet | kratos_element_test/model/pipeline/result_collector.py:45-46 | under every time, the tensors of all stages in stage order |
| Collector.ToHours | kratos_element_test/core/pipeline/result_collector.py:54-56 | every time step is divided by 3600 |
| Collector.CollectedSnoc | kratos_element_test/model/pipeline/result_collector.py:45-56 | one more stage appends its series and merges its tensors |
| Collector.CollectStages | kratos_element_test/model/pipeline/result_collector.py:34-56 | the stage loop returns the reference accumulation, or the first stage's exception, and logs the reading warnings of the stages read up to that exception; likewise at kratos_element_test/core/pipeline/result_collector.py:32-56 |
| Collector.ModelResultCollector.CollectResults | kratos_element_test/model/pipeline/result_collector.py:22-76 | the thirteen results: stitched yy strain, principal stresses, concatenated series, cohesion and phi passed through; the stage loop's warnings are logged |
| Collector.CoreResultCollector.CollectResults | kratos_element_test/core/pipeline/result_collector.py:19-79 | the same, with cohesion and phi looked up after the stage loop |
| Collector.CollectLogSnoc | kratos_element_test/model/pipeline/result_collector.py:34-35 | after successful stages, the next stage read adds its own reading warnings to the log |
| Collector.CollectLogSticks | kratos_element_test/model/pipeline/result_collector.py:34-43 | once a prefix of the stages raises, the later stages add nothing to the log |
| Collector.CollectLogStops | kratos_element_test/model/pipeline/result_collector.py:34-43 | the log of a failing collection is the reading warnings of every stage up to and including the one that raises |
| Collector.CollectLogAllRead | kratos_element_test/model/pipeline/result_collector.py:34-35 | when no stage raises, the log is the reading warnings of every stage, in order |
| Collector.StageRaises | kratos_element_test/model/pipeline/result_collector.py:34-43 | the stage loop meets a stage that raises: the collection raises its exception, and the log ends with that stage's warnings; likewise at kratos_element_test/core/pipeline/generic_test_runner.py:46-54 |
| Collector.CollectLogWarnsMissing | kratos_element_test/model/pipeline/result_collector.py:92-94 | a collection that raises nothing logs exactly one "Missing result file: " warning per missing file, naming it, in stage order; likewise at kratos_element_test/core/pipeline/result_collector.py:95-97 |
| Collector.MissingNeverRaises | kratos_element_test/model/pipeline/result_collector.py:92-94 | a stage that raises had its file read, so it logs no missing-file warning |
| Collector.MissingPaths | kratos_element_test/model/pipeline/result_collector.py:92-93 | the missing files' paths, each one the path of a missing stage, no more of them than stages |
| Collector.MissingFileContributesNothing | kratos_element_test/model/pipeline/result_collector.py:92-94 | a missing file reduces to empty series and never raises |
| Collector.AllMissingCollectsNothing | kratos_element_test/model/test/test_result_collector.py:48-58 | collecting only missing files raises nothing and gives empty series |
| Collector.RunnerCollectedSnoc | kratos_element_test/core/pipeline/generic_test_runner.py:58-77 | one more stage: yy shifted by the last stitched value, everything else appended, time left in seconds |
| Collector.ShiftStage | kratos_element_test/core/pipeline/generic_test_runner.py:58-64 | the inline offset step shifts only once something was collected, and moves the offset to the stage's last value |
| Collector.RunnerPostProcess | kratos_element_test/core/pipeline/generic_test_runner.py:33-90 | the ten series in their fixed order; the stitched yy series equals the collectors'; the missing-file warnings are logged up to the first exception |
| Json.LoadsDump | kratos_element_test/model/io/project_parameter_editor.py:115 | for a well-formed value, `json.loads(json.dumps(x))` gives x back |
| Json.GetSetSame | kratos_element_test/model/io/project_parameter_editor.py:122-124 | a value set at a path reads back at that path |
| Json.GetSetOther | kratos_element_test/model/io/project_parameter_editor.py:122-127 | a set leaves every path that diverges from the set path unchanged |
| Json.AssignKeys | kratos_element_test/model/io/project_parameter_editor.py:129 | assigning an existing key keeps the key order; a new key goes last |
| ProjectParameters.LoadJson | kratos_element_test/model/io/project_parameter_editor.py:33-37 | the decoded text, or RuntimeError when it is not JSON |
| ProjectParameters.SubstPropertyPointwise | kratos_element_test/model/io/project_parameter_editor.py:59-67 | every `"name": <number>` gets the new number and nothing else changes |
| ProjectParameters.SubstPropertyNone | kratos_element_test/model/io/project_parameter_editor.py:62-63 | zero matches leave the text unchanged |
| ProjectParameters.PropertyWarnings | kratos_element_test/model/io/project_parameter_editor.py:63-66 | a warning for zero matches and for more than one; none for exactly one |
| ProjectParameters.FirstMatchNone | kratos_element_test/model/io/project_parameter_editor.py:44-52 | no match found exactly when no process matches |
| ProjectParameters.FirstMatchFirst | kratos_element_test/model/io/project_parameter_editor.py:44-52 | the match found is the first that does |
| ProjectParameters.NestedUpdateFound | kratos_element_test/model/io/project_parameter_editor.py:43-52 | a found update replaces the key in that first matching process only |
| ProjectParameters.NestedUpdateElsewhere | kratos_element_test/model/io/project_parameter_editor.py:49-50 | every other path of the data is unchanged |
| ProjectParameters.NestedUpdateReadsBack | kratos_element_test/model/io/project_parameter_editor.py:50 | the rewritten text decodes to the updated data |
| ProjectParameters.TimeProblemDataSets | kratos_element_test/model/io/project_parameter_editor.py:85-86 | start and end time are set under problem_data, created if missing |
| ProjectParameters.TimeSolverSets | kratos_element_test/model/io/project_parameter_editor.py:89 | time_step is set under solver_settings.time_stepping, created if missing |
| ProjectParameters.TimeStageSets | kratos_element_test/model/io/project_parameter_editor.py:82-89 | a retimed stage reads back start, end and (end − start) / steps |
| ProjectParameters.TimeStageWithoutSettings | kratos_element_test/model/io/project_parameter_editor.py:83 | a stage without stage_settings edits a detached dictionary and stays unchanged |
| ProjectParameters.TimeStageZeroSteps | kratos_element_test/model/io/project_parameter_editor.py:88 | zero steps raise ZeroDivisionError |
| ProjectParameters.RetimedStages | kratos_element_test/model/io/project_parameter_editor.py:81-94 | stage k is edited with start = the previous end time and its own end time and steps |
| ProjectParameters.RetimedKeys | kratos_element_test/model/io/project_parameter_editor.py:81-94 | the stage keys and their order are unchanged |
| ProjectParameters.StageTimingsMismatch | kratos_element_test/model/io/project_parameter_editor.py:81-100 | lengths that differ raise through the strict zip, and the text is not rewritten |
| ProjectParameters.StageTimingsAt | kratos_element_test/model/io/project_parameter_editor.py:79-97 | stage k of the result is stage k retimed |
| ProjectParameters.StageTimingsStage | kratos_element_test/model/io/project_parameter_editor.py:85-94 | stage k reads back start_k, end_k and time_step_k |
| ProjectParameters.StageTimingsChained | kratos_element_test/model/io/project_parameter_editor.py:94 | start_k is end_{k−1}, and start_0 is start_time |
| ProjectParameters.StageTimingsUntouched | kratos_element_test/model/io/project_parameter_editor.py:83 | a stage without settings is left as it was |
| ProjectParameters.NextStageCopy | kratos_element_test/model/io/project_parameter_editor.py:115-118 | the new stage is the last one with stage_preprocess removed, apart from four set fields |
| ProjectParameters.UnpreprocessedKeeps | kratos_element_test/model/io/project_parameter_editor.py:117-118 | without stage_preprocess the copy is unchanged |
| ProjectParameters.NextStageFields | kratos_element_test/model/io/project_parameter_editor.py:120-127 | start = last end, end = last end + duration, time_step = duration / steps, output name gid_output/output_stage{n+1} |
| ProjectParameters.RegisterStages | kratos_element_test/model/io/project_parameter_editor.py:129 | the new key holds the new stage; existing stages are unchanged |
| ProjectParameters.RegisterExecution | kratos_element_test/model/io/project_parameter_editor.py:130 | the new key is appended at the end of the execution list |
| ProjectParameters.RegisterKeys | kratos_element_test/model/io/project_parameter_editor.py:129 | the stage keys become the old ones plus the new key last |
| ProjectParameters.AppendStageNoStages | kratos_element_test/model/io/project_parameter_editor.py:109-111 | a file without stages raises KeyError, an empty stage dictionary IndexError |
| ProjectParameters.AppendStageSetup | kratos_element_test/model/io/project_parameter_editor.py:107-133 | a successful append is the new stage under key stage_{n+1}, registered as above |
| ProjectParameters.TableProcessEffect | kratos_element_test/model/io/project_parameter_editor.py:149-154 | the table becomes [0, i+1, 0] exactly on top-displacement constraint processes; others are unchanged |
| ProjectParameters.TableProcessIdempotent | kratos_element_test/model/io/project_parameter_editor.py:154 | applying the edit twice equals applying it once |
| ProjectParameters.TableStageAt | kratos_element_test/model/io/project_parameter_editor.py:146-154 | process k of stage i is process k edited with i |
| ProjectParameters.TableStageWithoutConstraints | kratos_element_test/model/io/project_parameter_editor.py:149 | a stage without a constraint list is unchanged |
| ProjectParameters.TableStagesAt | kratos_element_test/model/io/project_parameter_editor.py:146-154 | stage k is edited with index k |
| ProjectParameters.TableStagesKeys | kratos_element_test/model/io/project_parameter_editor.py:144-146 | the stage keys are unchanged |
| ProjectParameters.TopDisplacementTablesAt | kratos_element_test/model/io/project_parameter_editor.py:142-157 | the rewritten file holds stage k edited with index k |
| ProjectParameters.TableStagesFailure | kratos_element_test/model/io/project_parameter_editor.py:159-161 | the first failing stage decides the exception |
| ParameterEditor.UpdateProcesses | kratos_element_test/model/io/project_parameter_editor.py:149-154 | the process loop returns the reference traversal |
| ParameterEditor.FindMatch | kratos_element_test/model/io/project_parameter_editor.py:44-52 | the search loop returns the first match, or the first exception |
| ParameterEditor.UpdateStage | kratos_element_test/model/io/project_parameter_editor.py:147-154 | one stage updated as the reference stage edit |
| ParameterEditor.UpdateStages | kratos_element_test/model/io/project_parameter_editor.py:146-154 | the stage loop returns the reference stage edits |
| ParameterEditor.RetimeStages | kratos_element_test/model/io/project_parameter_editor.py:81-94 | the timing loop returns the reference retiming, with its log lines and first exception |
| ParameterEditor.ProjectParameterEditor.constructor | kratos_element_test/model/io/project_parameter_editor.py:11-27 | the editor holds the file's text and has logged nothing |
| ParameterEditor.Open | kratos_element_test/model/io/project_parameter_editor.py:26-27 | a missing file raises FileNotFoundError |
| ParameterEditor.ProjectParameterEditor.UpdateNestedValue | kratos_element_test/model/io/project_parameter_editor.py:39-57 | found: text and file rewritten; not found: a warning only; any exception: RuntimeError and nothing changed |
| ParameterEditor.ProjectParameterEditor.UpdateProperty | kratos_element_test/model/io/project_parameter_editor.py:59-67 | text rewritten, warnings by count, file written either way |
| ParameterEditor.ProjectParameterEditor.UpdateStageTimings | kratos_element_test/model/io/project_parameter_editor.py:69-100 | lines logged per stage; success rewrites text and file; failure is RuntimeError with text and file unchanged |
| ParameterEditor.ProjectParameterEditor.AppendStage | kratos_element_test/model/io/project_parameter_editor.py:102-134 | success rewrites text and file and logs the new key; an exception changes nothing |
| ParameterEditor.ProjectParameterEditor.UpdateTopDisplacementTableNumbers | kratos_element_test/model/io/project_parameter_editor.py:136-161 | success rewrites text and file; an exception is logged and raised again, nothing written |
| CoreParameterEditor.NestedUpdateFoundIff | kratos_element_test/core/io/project_parameter_editor.py:30-43 | a match is reported exactly when some load process has the module name and the key |
| CoreParameterEditor.CoreProjectParameterEditor.constructor | kratos_element_test/core/io/project_parameter_editor.py:13-20 | the editor holds the file's text |
| CoreParameterEditor.Open | kratos_element_test/core/io/project_parameter_editor.py:19-20 | a missing file raises FileNotFoundError |
| CoreParameterEditor.CoreProjectParameterEditor.UpdateNestedValue | kratos_element_test/core/io/project_parameter_editor.py:26-45 | True after changing the first match and rewriting; False with a warning and nothing written; RuntimeError on an exception |
| CoreParameterEditor.CoreProjectParameterEditor.UpdateProperty | kratos_element_test/core/io/project_parameter_editor.py:47-56 | returns the number of replacements; 0 leaves the text unchanged |
| Mdpa.SubstCountZero | kratos_element_test/core/io/mdpa_editor.py:38-39 | zero replacements exactly when the placeholder occurs nowhere |
| Mdpa.SubstCountsMatches | kratos_element_test/core/io/mdpa_editor.py:38 | the count returned is the number of non-overlapping matches |
| Mdpa.MiddleTokenSurvives | kratos_element_test/core/io/mdpa_editor.py:34 | the maximum-strain pattern leaves `$middle_maximum_strain` alone |
| Mdpa.LongerNameNotMatched | kratos_element_test/core/io/mdpa_editor.py:71 | the word boundary rejects a longer placeholder name |
| Mdpa.EndTimesNotMatched | kratos_element_test/core/io/mdpa_editor.py:71 | `$end_times` is not an `$end_time` match |
| Mdpa.PlaceholdersWellFormed | kratos_element_test/core/io/mdpa_editor.py:34 | the five placeholders are `$` followed by word characters |
| Mdpa.MdpaEditor.constructor | kratos_element_test/core/io/mdpa_editor.py:12-22 | the editor holds the file's text |
| Mdpa.Open | kratos_element_test/core/io/mdpa_editor.py:18-22 | a missing file raises RuntimeError |
| Mdpa.MdpaEditor.ReplacePlaceholder | kratos_element_test/core/io/mdpa_editor.py:37-43 | with matches, the text is replaced and saved; without, a warning only |
| Mdpa.MdpaEditor.UpdateMaximumStrain | kratos_element_test/core/io/mdpa_editor.py:33-43 | every `$maximum_strain` becomes −strain / 100 |
| Mdpa.MdpaEditor.UpdateInitialEffectiveCellPressure | kratos_element_test/core/io/mdpa_editor.py:45-55 | every `$initial_effective_cell_pressure` becomes the pressure |
| Mdpa.MdpaEditor.UpdateFirstTimestep | kratos_element_test/core/io/mdpa_editor.py:57-68 | every `$first_timestep` becomes end_time / num_steps; zero steps raise ZeroDivisionError |
| Mdpa.MdpaEditor.UpdateEndTime | kratos_element_test/core/io/mdpa_editor.py:70-81 | every `$end_time` becomes str(end_time) |
| Mdpa.MdpaEditor.UpdateMiddleMaximumStrain | kratos_element_test/core/io/mdpa_editor.py:83-94 | every `$middle_maximum_strain` becomes (−strain / 2) / 100 |
| RunPlan.LowerIsLower | kratos_element_test/model/pipeline/run_simulation.py:50 | lower-casing leaves no capital and is idempotent |
| RunPlan.LowerTestTypes | kratos_element_test/core/pipeline/run_simulation.py:62 | "Triaxial", "DIRECT_SHEAR" and "CRS" become the dispatch names |
| RunPlan.Div | kratos_element_test/model/pipeline/run_simulation.py:232-234 | true division; ZeroDivisionError exactly on zero |
| RunPlan.FirstTimestep | kratos_element_test/model/pipeline/run_simulation.py:250-253 | durations[0] / num_steps[0] in staged mode, otherwise end_time / num_steps; likewise at kratos_element_test/core/pipeline/run_simulation.py:254-257 |
| RunPlan.PrefixSums | kratos_element_test/model/pipeline/run_simulation.py:218-222 | end time k is the sum of the first k + 1 durations |
| RunPlan.CumulativeEndTimes | kratos_element_test/core/pipeline/run_simulation.py:227-231 | the running-total loop returns the prefix sums |
| RunPlan.PrefixSumsChained | kratos_element_test/model/pipeline/run_simulation.py:218-225 | chained from 0.0, stage k starts at the sum of the earlier durations and ends after its own |
| RunPlan.PrefixSumsTotal | kratos_element_test/model/pipeline/run_simulation.py:218-222 | the last end time is the total duration |
| RunPlan.StagedTimeStep | kratos_element_test/core/pipeline/run_simulation.py:227-233 | stage k is given the time step duration_k / steps_k |
| RunPlan.StressVectorShape | kratos_element_test/model/pipeline/run_simulation.py:239-243 | the initial stress vector is [−p, −p, −p, 0.0] |
| RunPlan.MaterialLawChoice | kratos_element_test/core/pipeline/run_simulation.py:202-217 | a truthy DLL gives the UDSM properties and law; otherwise Young's modulus and Poisson's ratio from parameters[0..1] (IndexError when shorter) and the linear-elastic law; likewise at kratos_element_test/model/pipeline/run_simulation.py:184-203 |
| RunPlan.MdpaPlanEdits | kratos_element_test/core/pipeline/run_simulation.py:249-266 | strain, end time and first time step always; cell pressure only for triaxial, middle strain only for direct shear, tables only for CRS with both lists; likewise at kratos_element_test/model/pipeline/run_simulation.py:245-264 |
| RunPlan.PyLen | kratos_element_test/model/pipeline/run_simulation.py:175 | len of a dictionary, list or string; TypeError otherwise |
| RunPlan.OutputFileNames | kratos_element_test/model/pipeline/run_simulation.py:266-275 | n stages give gid_output/output_stage1..n.post.res in order; no stages, the one output.post.res; likewise at kratos_element_test/core/pipeline/run_simulation.py:268-277 |
| RunPlan.StageFileIsOutputName | kratos_element_test/model/io/project_parameter_editor.py:126-127 | the result file of stage k is the output name an appended stage k is given |
| RunPlan.TemplateDirFirst | kratos_element_test/model/pipeline/run_simulation.py:133-141 | the first existing candidate; FileNotFoundError exactly when none exists |
| RunPlan.FindTemplateDir | kratos_element_test/core/pipeline/run_simulation.py:155-163 | the search loop returns that candidate |
| RunPlan.Copied | kratos_element_test/model/pipeline/run_simulation.py:145-151 | exactly the required files present in the template, each mapped to its copy |
| RunPlan.CopyFiles | kratos_element_test/model/pipeline/run_simulation.py:146-151 | the copy loop returns that map |
| RunPlan.SelectProjectPreference | kratos_element_test/model/pipeline/run_simulation.py:153-160 | the orchestrator file wins, then the plain one, else FileNotFoundError |
| RunPlan.MeshCopied | kratos_element_test/model/pipeline/run_simulation.py:162-165 | the mesh and material paths are set exactly when the template has them |
| RunPipeline.CrsAppendsCount | kratos_element_test/model/pipeline/run_simulation.py:175-182 | max(0, min(len(durations), len(steps)) − current) appends, from index current on, in order; with enough step counts, exactly the missing stages |
| RunPipeline.AppendMissingStages | kratos_element_test/model/pipeline/run_simulation.py:178-182 | the zip loop returns those appends |
| RunPipeline.CrsPlanGuard | kratos_element_test/model/pipeline/run_simulation.py:168-171 | without both lists the model raises ValueError and the core returns silently |
| RunPipeline.CrsPlanAppends | kratos_element_test/core/pipeline/run_simulation.py:189-200 | with both lists, the missing stages are appended |
| RunPipeline.ProjectPlanStress | kratos_element_test/model/pipeline/run_simulation.py:239-243 | every plan that goes through ends with the initial-stress update |
| RunPipeline.ProjectPlanMismatch | kratos_element_test/model/pipeline/run_simulation.py:212-216 | a length mismatch raises ValueError before any edit in the model; the core goes on |
| RunPipeline.ProjectPlanStaged | kratos_element_test/model/pipeline/run_simulation.py:218-229 | prefix-sum end times from 0.0, then the table numbers only with more than one stage |
| RunPipeline.ProjectPlanSingleEndTime | kratos_element_test/core/pipeline/run_simulation.py:237-238 | without durations or a step list, the core times the stages with [end_time]; the model makes no timing call |
| RunPipeline.ProjectPlanFlat | kratos_element_test/model/pipeline/run_simulation.py:230-237 | flat schema: time_step then end_time patched, time_step from FirstTimestep |
| RunPipeline.RunSimulation.constructor | kratos_element_test/model/pipeline/run_simulation.py:50-69 | the test type is lower-cased and no path is set yet |
| RunPipeline.RunSimulation.CopySimulationFiles | kratos_element_test/model/pipeline/run_simulation.py:143-165 | the template search, the copies and the path choice, and their exceptions |
| RunPipeline.RunSimulation.PrepareCrsStages | kratos_element_test/model/pipeline/run_simulation.py:167-182 | returns the CRS plan |
| RunPipeline.RunSimulation.SetProjectParameters | kratos_element_test/model/pipeline/run_simulation.py:205-243 | returns the project plan |
| CoreRun.CollectRunResults | kratos_element_test/core/pipeline/run_simulation.py:100-126 | the thirteen results from the runner's ten series, principal stresses and cohesion/phi; a failed lookup raises its error |
| CoreRun.RenderDispatch | kratos_element_test/core/pipeline/run_simulation.py:297-325 | only triaxial, direct_shear and crs render; anything else is ValueError |
| CoreRun.RenderTriaxial | kratos_element_test/core/pipeline/run_simulation.py:302-308 | the triaxial plot receives its eight series in order |
| CoreRun.RenderDirectShear | kratos_element_test/core/pipeline/run_simulation.py:309-315 | the direct-shear plot receives shear strain first, then shear stress |
| CoreRun.RenderCrs | kratos_element_test/core/pipeline/run_simulation.py:316-323 | the CRS plot receives yy strain, time, σyy before σxx, and the rest |
| LegacyRun.LegacyProjectSchema | kratos_element_test/run_simulation.py:50-55 | time_step = end_time / num_steps, end_time, then the stress vector: the flat plan of the model run |
| LegacyRun.LegacyMdpaEdits | kratos_element_test/run_simulation.py:57-65 | cell pressure only for triaxial, middle strain only for direct shear |
| LegacyRun.CollectLegacyResults | kratos_element_test/run_simulation.py:118-135 | ten results, phi from the friction angle, principal stresses in insertion order |
| LegacyRun.LegacyRenderDispatch | kratos_element_test/run_simulation.py:82-100 | a None plotter is a no-op; any type other than triaxial and direct_shear (crs included) raises ValueError |
| LegacyRun.HeadlessRunChecksType | kratos_element_test/run_simulation.py:137-145 | with no plotter, the no-op plotter is used, so the type check still applies |
| SimulationInputs.ValidateShear | kratos_element_test/model/models.py:18-30 | passes exactly for triaxial/direct_shear, steps > 0, duration > 0 and a known drainage; ValueError otherwise |
| SimulationInputs.ShearDefaults | kratos_element_test/model/models.py:10-16 | the defaults pass for both types and fail for crs |
| SimulationInputs.ValidateIncrement | kratos_element_test/model/models.py:39-47 | passes exactly when increment magnitude < 100, steps > 0 and hours > 0 |
| SimulationInputs.ValidateIncrements | kratos_element_test/model/models.py:61-65 | passes exactly when every increment passes |
| SimulationInputs.ValidateCrs | kratos_element_test/model/models.py:61-65 | passes exactly for a valid type and valid increments |
| SimulationInputs.CrsDefaults | kratos_element_test/model/models.py:51-59 | five default increments, totals zero, and they validate |
| SimulationInputs.ToIndices | kratos_element_test/model/material_inputs.py:15-18 | the pair, in order, exactly when enabled with both indices set; likewise at kratos_element_test/core/models.py:16-19 |
| SimulationInputs.ToIndicesDisabled | kratos_element_test/model/material_inputs.py:11-17 | disabled options and the defaults give None |
| SimulationInputs.ValidateCore | kratos_element_test/core/models.py:33-39 | passes exactly for a valid type, steps > 0 and duration > 0 |
| SimulationInputs.ValidateCoreIgnoresDrainage | kratos_element_test/core/models.py:30-39 | drainage and stress increment never decide validation |
| SoilTestInputManager.WithTotals | kratos_element_test/model/soil_test_input_manager.py:28-41 | steps, seconds (3600 × hours) and strain are the sums over the increments |
| SoilTestInputManager.ReplaceTotals | kratos_element_test/model/soil_test_input_manager.py:43-59 | changing one increment changes each total by the difference |
| SoilTestInputManager.AppendTotals | kratos_element_test/model/soil_test_input_manager.py:76-80 | appending an increment adds its values to the totals |
| SoilTestInputManager.UniformTotals | kratos_element_test/model/test/test_soil_test_input_manager.py:11-36 | n equal increments give n times each value |
| SoilTestInputManager.DefaultTotals | kratos_element_test/model/test/test_soil_test_input_manager.py:11-36 | the defaults give 500 steps, 18000 s and strain 0.0 |
| SoilTestInputManager.InitialStore | kratos_element_test/model/soil_test_input_manager.py:16-26 | three entries, with the CRS totals of the defaults |
| SoilTestInputManager.EditedDefaults | kratos_element_test/model/test/test_soil_test_input_manager.py:38-67 | 150 steps at index 0 give 550; 1.5 h gives 5.5 h; increments 0.02 and 0.04 give 0.06 |
| SoilTestInputManager.InputManager.constructor | kratos_element_test/model/soil_test_input_manager.py:16-26 | the initial store |
| SoilTestInputManager.InputManager.UpdateCrsTotals | kratos_element_test/model/soil_test_input_manager.py:28-41 | the CRS entry gets its totals; other entries unchanged |
| SoilTestInputManager.InputManager.SetCrsStrainIncrement | kratos_element_test/model/soil_test_input_manager.py:43-47 | one increment's strain changed, totals recomputed; a bad index raises IndexError and changes nothing |
| SoilTestInputManager.InputManager.SetCrsDuration | kratos_element_test/model/soil_test_input_manager.py:49-53 | the same for the duration in hours |
| SoilTestInputManager.InputManager.SetCrsSteps | kratos_element_test/model/soil_test_input_manager.py:55-59 | the same for the steps |
| SoilTestInputManager.InputManager.UpdateInitPressure | kratos_element_test/model/soil_test_input_manager.py:61-62 | one field of the named entry; a missing entry raises KeyError |
| SoilTestInputManager.InputManager.UpdateMaxStrain | kratos_element_test/model/soil_test_input_manager.py:64-65 | one field of the named entry |
| SoilTestInputManager.InputManager.UpdateNumSteps | kratos_element_test/model/soil_test_input_manager.py:67-68 | one field of the named entry |
| SoilTestInputManager.InputManager.UpdateDuration | kratos_element_test/model/soil_test_input_manager.py:70-71 | sets the `duration` attribute and leaves duration_in_seconds unchanged |
| SoilTestInputManager.InputManager.UpdateDrainage | kratos_element_test/model/soil_test_input_manager.py:73-74 | one field of the named entry |
| SoilTestInputManager.InputManager.AddStrainIncrement | kratos_element_test/model/soil_test_input_manager.py:76-80 | a default increment appended, totals recomputed |
| SoilTestInputManager.InputManager.RemoveLastCrsStrainIncrement | kratos_element_test/model/soil_test_input_manager.py:82-84 | pops only above one increment; the totals stay as they were |
| SoilTestInputManager.RemovalLeavesStaleTotals | kratos_element_test/model/soil_test_input_manager.py:82-84 | from the defaults, four increments remain but the step total still says 500 |
| SoilTestInputManager.InputManager.RemoveLastCrsStrainIncrementWithTotals | kratos_element_test/model/soil_test_input_manager.py:82-84 | the corrected removal, with totals recomputed |
| SoilTestInputManager.CorrectedRemovalKeepsTotals | kratos_element_test/model/soil_test_input_manager.py:82-84 | the corrected removal keeps the totals and never drops below one increment |
| ResultManager.Lookup | kratos_element_test/model/result_manager.py:5-6 | a stored type's results, or {} |
| ResultManager.LookupAfterSet | kratos_element_test/model/result_manager.py:8-9 | after a set, that type reads the new results (replaced, not merged) and every other type what it read before |
| ResultManager.ResultManager.constructor | kratos_element_test/model/result_manager.py:2-3 | every type reads {} |
| ResultManager.ResultManager.SetResults | kratos_element_test/model/result_manager.py:8-9 | the one type's results replaced, the others unchanged |
| MaterialInputManager.MaterialInputManager.constructor | kratos_element_test/model/material_input_manager.py:2-3 | the material type starts as "" |
| MaterialInputManager.MaterialInputManager.SetCurrentMaterialType | kratos_element_test/model/material_input_manager.py:5-6 | get returns the value set |
| MaterialInputManager.AfterWrites | kratos_element_test/model/material_input_manager.py:5-9 | the last write wins; no writes leave "" |
| MaterialInputManager.Replay | kratos_element_test/model/test/test_material_input_manager.py:7-14 | replaying writes on a new manager reads back the last |
| MaterialInputDataUtils.GetCohesionAndPhi | kratos_element_test/model/material_input_data_utils.py:11-19 | the method's pair; AttributeError becomes (None, None); other exceptions propagate |
| MaterialInputDataUtils.ConvertUserInputs | kratos_element_test/model/material_input_data_utils.py:22-25 | the same keys, each mapped to its parameter's value |
| MaterialInputDataUtils.ConvertAfterPut | kratos_element_test/model/material_input_data_utils.py:22-25 | each key converts independently of the others |
| MaterialInputDataUtils.UdsmCohesionPhi | kratos_element_test/model/test/test_material_input_data_utils.py:25-59 | enabled with indices 2 and 3 reads 2.0 and 3.0; disabled gives (None, None) |
| ControllerSupport.McTuple | kratos_element_test/controller/element_test_controller.py:54-60 | the index pair exactly when enabled and both are set; likewise at kratos_element_test/ui/element_test_controller.py:30-36; likewise at kratos_element_test/ui/controller.py:25-31 |
| ControllerSupport.Trunc | kratos_element_test/ui/element_test_controller.py:86 | int() truncates toward zero |
| ControllerSupport.TruncPositive | kratos_element_test/ui/element_test_controller.py:86 | the truncation is positive exactly when the value is at least 1 |
| ElementTestController.NameToType | kratos_element_test/controller/element_test_controller.py:87-92 | the display name maps to its test type; unknown names to None |
| ElementTestController.SimulationArgsLists | kratos_element_test/controller/element_test_controller.py:114-147 | for CRS the duration (3600 × hours), step and strain lists follow the increments in order with equal length, and num_steps is the step list; otherwise the record's steps |
| ElementTestController.RunRejectsBeforeSimulation | kratos_element_test/controller/element_test_controller.py:87-101 | an invalid type or a failed validation returns False with no simulation |
| ElementTestController.RunUpdatesLatest | kratos_element_test/controller/element_test_controller.py:158-166 | True means the simulation ran and both latest results and latest type were stored; False keeps the latest type, and keeps the latest results unless the simulation ran (a failing render comes after the results are stored); a headless run that simulates returns True |
| ElementTestController.HeadlessRunSucceeds | kratos_element_test/controller/element_test_controller.py:168-173 | without a plotter a successful run still returns True |
| ElementTestController.ElementTestController.constructor | kratos_element_test/controller/element_test_controller.py:23-41 | no latest results, MC disabled, drainage "drained" |
| ElementTestController.ElementTestController.SetMohrEnabled | kratos_element_test/controller/element_test_controller.py:43-47 | the flag set and logged; indices unchanged |
| ElementTestController.ElementTestController.SetMohrMapping | kratos_element_test/controller/element_test_controller.py:49-52 | the indices set; flag unchanged |
| ElementTestController.ElementTestController.SetDrainage | kratos_element_test/controller/element_test_controller.py:68-77 | a known drainage is stored; otherwise a warning and the old value kept |
| ElementTestController.ElementTestController.Run | kratos_element_test/controller/element_test_controller.py:79-166 | the outcome and new state of the run step: guards, arguments, simulation, render, latest results |
| UiElementTestController.ElementTestController.constructor | kratos_element_test/ui/element_test_controller.py:12-21 | no test type, MC disabled, drainage "drained" |
| UiElementTestController.ElementTestController.SetMohrEnabled | kratos_element_test/ui/element_test_controller.py:23-25 | the flag set and logged |
| UiElementTestController.ElementTestController.SetMohrMapping | kratos_element_test/ui/element_test_controller.py:27-28 | the indices set |
| UiElementTestController.ElementTestController.SetTestType | kratos_element_test/ui/element_test_controller.py:44-47 | only triaxial and direct_shear are stored; crs is rejected with a warning |
| UiElementTestController.ElementTestController.SetDrainage | kratos_element_test/ui/element_test_controller.py:55-58 | a known drainage stored, otherwise the old value kept |
| UiElementTestController.ElementTestController.Run | kratos_element_test/ui/element_test_controller.py:60-127 | argument or stored type; an invalid type or failed validation returns before the simulation; a failure is logged and raised again |
| UiElementTestController.CoreArgs | kratos_element_test/ui/element_test_controller.py:107-123 | the core run's keyword arguments from the record |
| UiElementTestController.CoreArgsOfValidRun | kratos_element_test/ui/element_test_controller.py:81-100 | a run that gets past the checks passes the truncated steps and the entered values |
| UiElementTestController.FractionalStepsRejected | kratos_element_test/ui/element_test_controller.py:86-100 | steps below 1 truncate to 0 or less and fail validation |
| UiController.ElementTestController.constructor | kratos_element_test/ui/controller.py:10-16 | MC disabled, no indices |
| UiController.ElementTestController.SetMohrEnabled | kratos_element_test/ui/controller.py:18-20 | the flag set and logged |
| UiController.ElementTestController.SetMohrMapping | kratos_element_test/ui/controller.py:22-23 | the indices set |
| UiController.ElementTestController.Run | kratos_element_test/ui/controller.py:33-64 | the MC line, then the simulation with the MC tuple, n_steps and duration passed through; a failure is logged and raised again |
| ResultExporter.Pair | kratos_element_test/view/result_exporter.py:23-24 | a two-column frame, only for columns of equal length |
| ResultExporter.SeriesSheetTruncates | kratos_element_test/view/result_exporter.py:15-25 | both keys present as lists: the columns truncated to the shorter length; otherwise None |
| ResultExporter.Subtract | kratos_element_test/view/result_exporter.py:34 | element-wise difference of equal-length series |
| ResultExporter.AbsAll | kratos_element_test/view/result_exporter.py:34 | element-wise absolute value |
| ResultExporter.Scale | kratos_element_test/view/result_exporter.py:43 | element-wise scaling |
| ResultExporter.DeltaSigmaValues | kratos_element_test/view/result_exporter.py:27-37 | None whenever σ1, σ3 or yy is missing or empty; when all three are non-empty lists of equal σ lengths, two columns: yy truncated to the common length, then |σ1[i] − σ3[i]| |
| ResultExporter.ShearValues | kratos_element_test/view/result_exporter.py:39-46 | x = |2·εxy[i]|, y = |τxy[i]| |
| ResultExporter.MohrCircleOfLast | kratos_element_test/view/result_exporter.py:48-54 | centre and radius from the last σ1 and σ3; empty inputs give None |
| ResultExporter.RegistryShape | kratos_element_test/view/result_registry.py:5-26 | exactly triaxial, direct_shear and crs have a mapping; these have exactly five, four and five plots, the Mohr plot in its place, and every plot's two labels differ |
| ResultExporter.WriteSheets | kratos_element_test/view/result_exporter.py:85-93 | the sheet loop returns the reference sheets and whether any was written |
| ResultExporter.FailureSticks | kratos_element_test/view/result_exporter.py:86-93 | an exception in one sheet ends the export with that exception |
| ResultExporter.ErrSticks | kratos_element_test/view/result_exporter.py:86-93 | once a prefix fails, every longer prefix fails the same way |
| ResultExporter.SheetsNamedByPosition | kratos_element_test/view/result_exporter.py:87-93 | sheet j is named "Plot k" and holds plot k's frame, where k is the j-th of the increasing 1-based positions of the plots that give a non-empty frame; every such plot gives a sheet |
| ResultExporter.WrittenPositions | kratos_element_test/view/result_exporter.py:87-90 | the positions of the plots that give a non-empty frame: in range, increasing, and every such plot included |
| ResultExporter.TruePositions | kratos_element_test/view/result_exporter.py:87-90 | the 1-based positions of the true flags, increasing, every true flag included |
| ResultExporter.SheetsStep | kratos_element_test/view/result_exporter.py:87-93 | one more plot appends its sheet with its position when it gives a non-empty frame, and nothing otherwise |
| ResultExporter.SheetsMatchSnoc | kratos_element_test/view/result_exporter.py:91-92 | appending a written plot's sheet and position keeps every sheet matched to its plot |
| ResultExporter.SheetNameShort | kratos_element_test/view/result_exporter.py:91-92 | the names stay within Excel's 31 characters, so the cut changes nothing |
| ResultExporter.ExportExcel | kratos_element_test/view/result_exporter.py:64-100 | unknown type: an error box and nothing written; no path: nothing; otherwise the sheets, with the warning exactly when none was written |

## Left out

- The solver. KratosMultiphysics, the orchestrator and the analysis stages are opaque foreign calls. A run's solver outputs enter as inputs: the parsed result files and the runner's ten series.
- File-system effects: temporary directories, copying, `rmtree` and `keep_tmp` printing. A file is a field or an `Option` input, and existence is a `set` of paths.
- The template candidate list. It is built from `__file__` and `importlib.resources`, so the candidates enter as a parameter.
- GiD result parsing. The reader and `get_time_steps_from_first_valid_result` are not part of this model. Their output is the input datatype `GidOutput.StageOutput`.
- `np.linalg.eigh`. The eigenvalue function is a parameter, and only its three values are used.
- Number formatting: `.4f` and `str()` of a float are function parameters.
- Regular expressions. The mesh-file patterns are a scan for the placeholder followed by a non-word character. The project-file pattern is a scan over JSON tokens (`"name"`, colon, number).
- The Mohr-circle sampling (`linspace`, `cos`, `sin`). Only the centre and radius are modelled.
- pandas frames, Excel writing and tkinter dialogs. A sheet is a labelled pair of columns; dialogs and message boxes are outcomes.
- Dictionary order. It is kept where it matters, as ordered members and the `Groups` key order; hashing is not modelled.
- Float rounding. All floats are `real`.
- The text of exception messages. The exception class is modelled; the message and the log line carry only the logged message.
- `hours_to_seconds` and `seconds_to_hours` are not part of this model. They are modelled as ×3600 and ÷3600.
- `material_input_data_models` and `material_editor` are not part of this model:
  - the material classes' `get_cohesion_and_phi` enters as the outcome of calling it;
  - the material editor's calls are recorded in a plan, not executed.
- `insert_displacement_tables` and `update_top_displacement_tables` are not part of this model. They appear in the mesh-edit plan only.
- The run pipelines' editor calls are modelled as plans, meaning lists of calls in order, not executed. Several of these calls do not match the editors shown:
  - the core run calls `update_first_timestep` with one argument, while the mesh editor takes two;
  - the core run calls an `update_stage_timings` on the core project-parameter editor, which does not define it.
- The model collector's constructor takes cohesion and phi, but the model run passes material parameters and indices into those slots. `Collector.ModelResultCollector` models the constructor and passes through what it is given.
- The model controller imports `MohrCoulombOptions` from a module that does not define it. Its `to_indices` is modelled as `SimulationInputs.ToIndices`.
- `ui/controller.py` imports `run_simulation` from the core pipeline, which defines it only inside the class body. The simulation is a parameter of `UiController.ElementTestController.Run`, with the keyword arguments the call passes.
- Test files that disagree with the classes shown:
  - the model collector's tests use the core collector's constructor, so their regression values are stated against `CohesionPhi.GetCohesionPhi`;
  - the result-manager test's constructor signature differs, and only the class's own methods are modelled.
- Logging. The editors, the controllers, the legacy render step and the result collectors' "Missing result file: " warnings are modelled as the sequence of (level, message) entries a logger would receive. The fallback logger and the console are left out. Other log calls are not modelled:
  - the generic runner's line naming the work directory and the orchestrator flag (`core/pipeline/generic_test_runner.py:26`), because it prints an absolute path resolved against the process's working directory;
  - the pipelines' progress lines ("Starting … simulation...", "Finished analysis", "Collecting results...", "Rendering complete.", "Failed to clean tmp dir: …"), because the run sequence they annotate is modelled as separate steps.
- `Collector.RunnerPostProcess`: its log holds only the missing-file warnings. The two info lines the runner's `_read_output` logs for every file it reads (`core/pipeline/generic_test_runner.py:119-120`) are left out: they print Python's `repr` of the key list and the file's base name.
- `GidOutput.ReadResults`: the path in the warning is the text given, not `str(Path(...))` after Python's path normalisation.
- JSON numbers. `Json.Json` has one number case, `JNum(x: real)`, so Python's distinction between `int` and `float` values is lost. This concerns the stage number written into each displacement table (`i + 1`, an `int`) and the serialised form of whole-number floats.
- Character classes. `Mdpa.IsWordChar` and `RunPlan.Lower` cover ASCII only. Python's `\w` and `str.lower()` are Unicode-aware. The placeholders and test-type names involved are ASCII.
- `ResultExporter.DeltaSigmaSheet`, `ResultExporter.ShearSheet` and `ResultExporter.MohrSheet`: a truthy result value that is not a list is modelled as raising TypeError. In the source, numpy would broadcast such a scalar or try to convert it.
- The composed `run` of the model and core pipelines is not stated as one plan. The model states its steps (template copy, CRS stage set-up, material, project parameters, mesh edits, the runner, collection and rendering) each on their own, but not the order in which `run` calls them.
- GUI and threading code, the GUI-demo frameworks, `api_test.py` and the protocol-only interfaces are outside the core.
- MainModel and the soil-test input controller are delegates. The input manager is modelled directly.
- `ElementTestController.ElementTestController.Run`: the plotter factory is not modelled as raising. Only whether it returned a plotter is an input.
- `Principal.CalculatePrincipalStresses`: the eigenvalue function is abstract, so the contract states counts, order and σ1 ≤ σ3 and not the eigenvalues themselves.

## Findings

| source | as written | input that shows it | evidently intended | confidence | as-written member | corrected member |
|---|---|---|---|---|---|---|
| kratos_element_test/model/soil_test_input_manager.py:82-84 | removing the last CRS increment does not recompute the totals, although every other increment edit does, and the run takes its end time and maximum strain from those totals | the initial store followed by one removal: four increments of 100 steps and 1 h remain, but the totals still say 500 steps and 18000 s | recompute the totals after the removal, as `add_strain_increment` does | medium, not executed | SoilTestInputManager.RemovalLeavesStaleTotals | SoilTestInputManager.CorrectedRemovalKeepsTotals |
