# PFC twin optimisation for mining: a verified model

The system calibrates a particle-flow (PFC) model of a longwall mining
excavation against measured displacement fields. A Bayesian optimiser on the
client proposes rock-mass parameters. Worker threads send each proposal to one
of two PFC simulation servers, which build the layered model, excavate it in
16 steps and return one displacement CSV per step. The client scores the
returned steps against the target CSVs with a weighted RMSE loss. It caches
every successful run in an on-disk knowledge base and uses that cache to
warm-start later optimisations.

This project models, in Dafny:

- the client's worker (`run_simulation_worker`): formatting large values,
  cache lookup, extracting the JSON from a reply, telling errors from data,
  saving to the cache and the penalty;
- the client's dispatch loop, as a state machine over the in-flight jobs, the
  told jobs and the round-robin server choice; which job completes next is an
  arbitrary schedule;
- the multi-step loss, including the point transform and the normalisation;
- the knowledge base as an object whose field is the directory: save, load
  and the warm-start filter;
- both server revisions: layer geometry, the excavation schedule and its
  per-step data, the parameter merge (plain, and float-converting in revision
  7), the run id and the packaging of the reply;
- the naming of the results directory.

Everything the core delegates to a library, the file system or the engine is a
function-typed parameter:

- `json.loads`/`json.dumps`, SHA-256, md5, `float()` on strings,
  `f"{v:.6e}"`, `f"{x:.2f}"`, `round(x, 4)` and `str()` of a list of pairs;
- file existence and CSV reading;
- `griddata` with the RMSE;
- an exception raised by the PFC engine, passed in as its message.

Where a property needs something of such a function, the lemma states it as
a precondition: for example `RoundTrips` (decoding an encoding gives the value
back) and `EncodesObjectsBraced`.

The modules are:

- `Text`: string search, slicing, `os.path.join`, sorted key lists;
- `Json`: decoded values, the codec, truthiness, `float()`;
- `Dicts`: Python's insertion-ordered dict as a list of pairs;
- `UtilitiesMining`;
- `LossFunction`;
- `KnowledgeBaseManager`;
- `MiningClient`: the worker;
- `ClientDispatch`: the main block's loop. Its loop members require a
  non-empty initial batch whenever jobs remain (`nInitial == 0 ==> nCalls == 0`):
  with nothing in flight, `as_completed({})` yields nothing and the source's
  `while` loop would spin forever. The client always starts with 5 jobs, or
  `len(SERVER_LIST)` = 2 with prior data, so every real run meets it;
- `PfcServer`: `PFC_model/pfc_server.py`;
- `PfcServer2`: `PFC_model/pfc_server2.py`;
- `ClientServerExchange`: one call seen from both ends.

The two server revisions share the following code, which `PfcServer` models
once:

| shared code | `pfc_server2.py` | `pfc_server.py` |
|---|---|---|
| `calculate_geology` | 98-103 | 103-108 |
| the excavation loop | 131-169 | 136-185 |
| the run id | 179-180 | 195-196 |
| the packaging | 224-233 | 218-228 |

`PfcServer2` adds only the converting merge and its own cycle.

## Model

| member | source | states |
|---|---|---|
| UtilitiesMining.SanitizeName | utilities_mining.py:15 | the sanitised case name has the original length, contains no `.` and no space, and keeps every other character in place, with `_` where a `.` or space was |
| UtilitiesMining.SanitizeIdempotent | utilities_mining.py:15 | sanitising a sanitised name changes nothing |
| UtilitiesMining.SetupResultsDirectory | utilities_mining.py:11-22 | the results directory is `optimization_results/run_<sanitised>_<timestamp>` and the curves directory is `<results dir>/plots` |
| LossFunction.TransformPoints | loss_function.py:30-35 | the in-place update maps every point to (x·x_scale + x_shift, y·y_scale + y_shift), scale first and then shift, with defaults 1 and 0 |
| LossFunction.AffineInvertible | loss_function.py:30-35 | with non-zero scales the transform loses nothing: undoing the shift and then the scale gives the point back |
| LossFunction.NeutralParts | loss_function.py:30-35 | a scale of 1 or a shift of 0 leaves points unchanged, so the guards skipping those updates do not change the result |
| LossFunction.MaxAbs | loss_function.py:37 | the result bounds every magnitude and is attained by one of the values |
| LossFunction.Normalize | loss_function.py:37-38 | normalising fails exactly on an empty field (`np.max` of nothing raises) and otherwise keeps the number of values |
| LossFunction.NormalizeBounds | loss_function.py:37-38 | above the 1e-9 guard every normalised value lies in [-1, 1] and some value has magnitude exactly 1; at or below it the values are returned unchanged |
| LossFunction.ProcessDisplacementData | loss_function.py:17-42 | an unreadable or empty source gives `(None, None)`; otherwise every point is transformed in place and the values are normalised |
| LossFunction.SingleStep | loss_function.py:44-69 | a target that cannot be processed, or a simulation string that cannot, raises; otherwise the result is the alignment of the two processed fields |
| LossFunction.CalculateSingleStepLoss | loss_function.py:44-69 | the method computes the `SingleStep` outcome |
| LossFunction.StepContributionCases | loss_function.py:91-117 | a step is skipped exactly when its target file is missing, its payload is falsy or its loss is NaN; it raises exactly when the target exists, the payload is truthy and the comparison fails; otherwise it adds its loss with weight `step_weights.get(key, 1.0)` |
| LossFunction.EvaluateStep | loss_function.py:88-117 | one pass of the step loop yields that step's contribution |
| LossFunction.SumSteps | loss_function.py:88-117 | the loop raises exactly when some step raises; otherwise it returns the weighted loss sum and the weight sum of the included steps |
| LossFunction.LossOfSteps | loss_function.py:79-125 | the weighted mean over the sorted step keys of a decoded dict, or 1e10 |
| LossFunction.CalculateMultiStepLoss | loss_function.py:71-129 | the method returns the specified loss of the JSON text, so text that does not decode to a dict gives 1e10 |
| LossFunction.MissingStepsRaise | loss_function.py:127-129 | once a prefix of the keys raises, the whole key list raises |
| LossFunction.RaiseAnywhere | loss_function.py:103-105 | a step that raises at any position makes the key list raise |
| LossFunction.AnyRaiseIsPenalty | loss_function.py:127-129 | if any step raises, the loss is exactly 1e10: the function never raises |
| LossFunction.AllSkippedIsEmpty | loss_function.py:115-117 | when every step is skipped nothing is summed |
| LossFunction.NoTargetIsPenalty | loss_function.py:119-122 | when no step has a target file the loss is exactly 1e10 |
| LossFunction.LossWithinStepLosses | loss_function.py:111-125 | with non-negative weights the loss is 1e10 or lies between the smallest and largest included step loss; when no step raises and the included weights sum to more than zero it always lies between them |
| LossFunction.DefaultWeightsMean | loss_function.py:111-125 | without `step_weights` every included step weighs 1.0, so the loss is the plain mean of the included step losses |
| LossFunction.SkippedStepIgnored | loss_function.py:98-117 | removing a skipped step (no target, empty payload, NaN) from the dict leaves the loss unchanged |
| Json.ToFloat | knowledge_base_manager_mining.py:78 | `float()` of an int or float is its value, a bool is 1.0 or 0.0, a string (such as the `.6e` text the client stores for large values) converts exactly as the float parser decides, and `None`, a list or a dict raises |
| KnowledgeBaseManager.FileNameIgnoresOrder | knowledge_base_manager_mining.py:19-23 | the hash, and so the file name, depends only on the (name, value) pairs, not on the order the keys were inserted |
| KnowledgeBaseManager.LoadAfterSave | knowledge_base_manager_mining.py:25-50 | save and load use the same file; loading right after a save returns the encoding of the saved simulation data |
| KnowledgeBaseManager.SaveKeepsOthers | knowledge_base_manager_mining.py:25-37 | saving one parameter set leaves every other set's entry as it was |
| KnowledgeBaseManager.LastSaveWins | knowledge_base_manager_mining.py:35-36 | the file is opened with `'w'`: saving twice is the same as saving the second record once |
| KnowledgeBaseManager.CachedLossIsFreshLoss | knowledge_base_manager_mining.py:30-49 | with a codec that round-trips, a cache hit scores exactly as the reply it was saved from |
| KnowledgeBaseManager.KnowledgeBase.Load | knowledge_base_manager_mining.py:39-50 | load finds nothing exactly when the parameters' file does not exist |
| KnowledgeBaseManager.WrittenFiles | knowledge_base_manager_mining.py:35-36 | a completed write stores the record; a failed `open` changes nothing; a failed `json.dump` leaves a file whose next load raises; no other file changes |
| KnowledgeBaseManager.KnowledgeBase.Save | knowledge_base_manager_mining.py:25-37 | when the step text decodes, the parameters' file is written as the write outcome says and nothing else changes; when it does not decode, `json.loads` raises and nothing is written; it reports success exactly when the text decodes and the write completes |
| KnowledgeBaseManager.JsonFiles | knowledge_base_manager_mining.py:61 | the kept names are exactly the listed names ending in `.json` |
| KnowledgeBaseManager.ParamsList | knowledge_base_manager_mining.py:78 | one float per parameter name, in order; with no names it is the empty list whatever is stored; otherwise it fails exactly when the stored parameters are not a dict, a name is missing or a value does not convert |
| KnowledgeBaseManager.KnowledgeBase.LoadPrior | knowledge_base_manager_mining.py:69-91 | one pass of the loop yields that file's prior point, with every failure skipped |
| KnowledgeBaseManager.KnowledgeBase.WarmStart | knowledge_base_manager_mining.py:52-94 | x and y have equal length and are, pair by pair, the prior points of the `.json` files in listing order; an empty knowledge base gives `([], [])` |
| KnowledgeBaseManager.PriorsValid | knowledge_base_manager_mining.py:78-89 | every prior point has one coordinate per parameter and a loss below 1e9, and there are no more points than files |
| KnowledgeBaseManager.PriorsFromFiles | knowledge_base_manager_mining.py:67-91 | every prior point comes from some listed file and carries that file's loss |
| KnowledgeBaseManager.QualifyingFileKept | knowledge_base_manager_mining.py:83-89 | a file that yields a prior point is never dropped |
| MiningClient.WorkerLossEnv | mining_optimization_client.py:135-141 | the worker scores with `TARGET_TRANSFORM`, `SIM_TRANSFORM` and no step weights |
| MiningClient.BuildParams | mining_optimization_client.py:67 | the parameter dict built from names and values has each name once |
| MiningClient.BuildParamsZips | mining_optimization_client.py:67 | `zip` stops at the shorter list; when those names are distinct the dict holds exactly them, in order, each mapped to the value at its position |
| MiningClient.FormatValue | mining_optimization_client.py:79-80 | a value changes exactly when it is an int or float with magnitude at least 1e6, and then becomes its scientific-notation string |
| MiningClient.ForKbProperties | mining_optimization_client.py:77-80 | formatting keeps the keys and their order; a value changes only if it is large; no large number is left; formatting twice is formatting once |
| MiningClient.FormatLargeValues | mining_optimization_client.py:77-80 | the loop over the copy produces the formatted dict |
| MiningClient.ExtractPayload | mining_optimization_client.py:108-112 | nothing is extracted exactly when `{` or `}` is missing from the reply |
| MiningClient.ExtractIgnoresNoise | mining_optimization_client.py:108-112 | noise before the first `{` and after the last `}` is dropped: a braced body wrapped in such noise is recovered exactly |
| MiningClient.Classify | mining_optimization_client.py:108-128 | data is returned only when the extracted text decodes to a value without `error`; a server error is reported exactly when the decoded value contains `error`; every other case gives no data |
| MiningClient.ClassifyDecoded | mining_optimization_client.py:113-117 | a decoded dict, list or string is decided by whether it contains `error` |
| MiningClient.ErrorReplyRecognised | mining_optimization_client.py:114-116 | an encoded object with an `error` key, whatever noise surrounds it, is a server error |
| MiningClient.DataReplyRecognised | mining_optimization_client.py:113-118 | an encoded object without `error` is data, and exactly that object is decoded |
| MiningClient.WorkerReturns | mining_optimization_client.py:85-144 | the worker raises exactly when the knowledge-base lookup raises (a cached file that cannot be decoded or is not a dict); otherwise it returns the `params_list` and `job_id` it was given; the loss is 1e10 when the data is None and the multi-step loss of the data otherwise |
| MiningClient.CacheHitIgnoresServer | mining_optimization_client.py:85-88 | on a cache hit the reply plays no part and nothing is written |
| MiningClient.OnlyDataIsCached | mining_optimization_client.py:114-141 | after a cache miss, a reply that is not data gives 1e10 and saves nothing; data that is written is stored and scored |
| MiningClient.FailedSaveIsPenalty | mining_optimization_client.py:117-133 | data whose save raises is dropped by the outer handler and the job scores 1e10; a failed `open` leaves the knowledge base as it was, a failed `json.dump` makes the next lookup of those parameters raise |
| MiningClient.RepeatJobHitsCache | mining_optimization_client.py:85-118 | a job that received data and wrote it, asked again, hits the cache and gets the same loss without using the server |
| MiningClient.RunSimulationWorker | mining_optimization_client.py:63-144 | the worker method returns the specified result and leaves the knowledge base in the specified state |
| ClientDispatch.InitialBatch | mining_optimization_client.py:187 | the initial batch is `N_INITIAL_POINTS` without prior data and the number of servers with it |
| ClientDispatch.StartValid | mining_optimization_client.py:188-194 | the initial batch dispatches jobs 1..n, job j on server (j-1) mod n, each exactly once |
| ClientDispatch.CompleteStep | mining_optimization_client.py:198-212 | one completion tells exactly the completed job; while jobs remain it dispatches exactly one more, so the in-flight count stays the same; the invariants are kept |
| ClientDispatch.RunOutcome | mining_optimization_client.py:197-214 | the loop stops at `N_CALLS` dispatched, having told one job per iteration, with as many jobs in flight as when it started |
| ClientDispatch.ToldOnce | mining_optimization_client.py:198-202 | a told job is a dispatched job, and none is told twice |
| ClientDispatch.DispatchLoop | mining_optimization_client.py:184-214 | the loop, with its one-completion `for`/`break` body, computes the specified run for any completion order (given a non-empty initial batch whenever jobs remain, without which the source loop never ends) |
| ClientDispatch.DispatchOutcome | mining_optimization_client.py:187-214 | the final dispatched count is `max(n_initial, N_CALLS)` and job ids are consecutive; job j goes to server (j-1) mod n; only `dispatched - n_initial` jobs are told, each once, and `n_initial` stay in flight |
| ClientDispatch.LastBatchNeverTold | mining_optimization_client.py:197-214 | with the client's settings 50 jobs run, but only 45 results are told (48 with prior data); 5 (or 2) stay in flight |
| ClientDispatch.DrainOutcome | mining_optimization_client.py:198-202 | telling the remaining in-flight jobs empties them and tells each one, dispatching nothing |
| ClientDispatch.DrainedTellsEveryJob | mining_optimization_client.py:197-214 | with the drain, the told jobs are exactly jobs 1..dispatched, each once |
| ClientDispatch.DispatchLoopDrained | mining_optimization_client.py:184-214 | the corrected loop tells every dispatched job exactly once and leaves nothing in flight |
| PfcServer.CalculateGeology | PFC_model/pfc_server.py:103-108 | there are as many boundaries as layers; boundary i is the rounded sum of the last i+1 configured thicknesses; the model height is the sum of all of them |
| PfcServer.GeologyTopIsModelHeight | PFC_model/pfc_server.py:105-107 | the last boundary is the model height, up to rounding |
| PfcServer.GeologyAscends | PFC_model/pfc_server.py:107 | with non-negative thicknesses and a monotone rounding, the boundaries never descend |
| PfcServer.Trunc | PFC_model/pfc_server.py:145 | `int()` truncates toward zero |
| PfcServer.StepCount | PFC_model/pfc_server.py:142-145 | the step count is trunc((end_x − start_x)/step_width), with start_x = LEFT − WIDTH/2 and end_x = WIDTH/2 − RIGHT; a zero step width raises |
| PfcServer.DefaultSchedule | PFC_model/pfc_server.py:64-79 | the default configuration excavates from -80 to 80 in 16 steps |
| PfcServer.WindowsAbut | PFC_model/pfc_server.py:153-155 | window i is [start_x + i·w, start_x + (i+1)·w], so each window starts where the previous one ended |
| PfcServer.StepKeyInjective | PFC_model/pfc_server.py:150 | different steps get different keys |
| PfcServer.StepKeysNotError | PFC_model/pfc_server.py:150 | no step key is `error` |
| PfcServer.StepAppends | PFC_model/pfc_server.py:177-184 | each step adds a new key at the end of the dict |
| PfcServer.StepDataKeys | PFC_model/pfc_server.py:149-184 | the keys are exactly `step_0..step_{n-1}`, each once and in order; step i holds its CSV text, or `""` when the file does not exist |
| PfcServer.StepDataReadsGeometry | PFC_model/pfc_server.py:142-184 | the collected data depends on the configuration only through its geometry |
| PfcServer.RunExcavation | PFC_model/pfc_server.py:136-185 | the loop collects the specified step data, or raises on a zero step width |
| PfcServer.RunHash | PFC_model/pfc_server.py:195-196 | the run id is the first 12 characters of the hex digest of the sorted pairs: at most 12, and exactly 12 for a full digest |
| PfcServer.RunHashIgnoresOrder | PFC_model/pfc_server.py:195-196 | the run id does not depend on the order of the client's keys |
| PfcServer.MergeParameters | PFC_model/pfc_server.py:199-202 | the merge loop gives the default pairs as a dict (first position, last value), updated with each client pair in turn |
| PfcServer.MergeContract | PFC_model/pfc_server.py:199-202 | the merged list holds every default and every client key, each once; the default first-occurrence order comes first; client values override; every other key keeps its last default value |
| PfcServer.RunConfig | PFC_model/pfc_server.py:198-202 | a run works on a copy of `DEFAULT_CONFIG` with only the parameter list replaced, so the geometry is the default and the defaults are unchanged |
| PfcServer.ScheduleIndependentOfClient | PFC_model/pfc_server.py:198-202 | whatever the client sends, the run has the default 16 steps |
| PfcServer.PackageShape | PFC_model/pfc_server.py:218-228 | the reply is the step map, holding each step's text, exactly when the engine did not fail and some step was collected; otherwise it is an object whose only key is `error`, naming the exception when there was one |
| PfcServer.RunSingleOptimizationCycle | PFC_model/pfc_server.py:192-232 | one cycle computes the specified run id, run configuration and reply |
| PfcServer.CycleAnswersSixteenSteps | PFC_model/pfc_server.py:192-228 | without an engine failure the reply is the encoding of the 16 default steps |
| PfcServer2.Coerce | PFC_model/pfc_server2.py:186-190 | a value that `float()` accepts becomes that float and any other value stays as given, so the result is a float or the original value |
| PfcServer2.CoerceIdempotent | PFC_model/pfc_server2.py:186-190 | converting an already converted value changes nothing |
| PfcServer2.MergeCoerced | PFC_model/pfc_server2.py:183-191 | the converting loop gives the default dict updated with each converted client pair |
| PfcServer2.MergeCoercedContract | PFC_model/pfc_server2.py:183-191 | the converting merge lists the same keys in the same order as the plain override; a client value arrives as `float(value)` when that converts and as given otherwise; every other key keeps its default |
| PfcServer2.RunSingleOptimizationCycle2 | PFC_model/pfc_server2.py:176-233 | one revision-7 cycle computes the specified run id (of the values as sent), configuration and reply |
| PfcServer2.RevisionsAgreeOnReply | PFC_model/pfc_server2.py:176-233 | both revisions compute the same run id and send the same reply for the same request and engine outcome |
| ClientServerExchange.ServerRepliesClassified | mining_optimization_client.py:108-118 | with a codec that round-trips, a completed run reaches the client as data (exactly the server's step map) and a failed run as a server error |

## Left out

- Sockets, the accept loop and `recv`/`sendall` on both sides. The client's
  `recv` loop is left out, replaced by the received text (or None for any
  network exception). `strip()` of the reply is not modelled: it only removes
  whitespace outside the braces, which the extraction drops anyway.
- Threads. `ThreadPoolExecutor` and `as_completed` become an arbitrary
  completion schedule.
- The optimiser (`skopt`: `ask`, `tell`, the Gaussian process). The model
  records only which job ids are told and in what order.
- The PFC engine (`itasca`): model generation, equilibrium, ball deletion,
  solving, and writing the CSVs. An engine exception is an input message.
  Whether a step's CSV exists, and its text, are the `readCsv` oracle.
- Floating point. Numbers are `real`. `griddata`, the RMSE, `sqrt` and the
  NaN test are the `align` oracle. `round(x, 4)` and the `.2f`/`.6e`
  formats are foreign functions. `PfcServer.Trunc` is exact truncation.
- Hashing (SHA-256, md5), `json` and `str()` are foreign functions. A
  decoded JSON object is a map, so the key order of dumped text is not
  modelled. The knowledge base's indented `json.dump`/`json.load` is taken
  to give the same value back.
- Numpy conversion in the worker (`np.integer`/`np.floating` to Python
  numbers): the model starts from Python values.
- File-system effects:
  - `makedirs`, `setup_temporary_environment`;
  - removing the temporary run directory in `pfc_server.py`;
  - archiving with `move`/`rmtree` and writing `parameters.txt` in
    `pfc_server2.py` (they do not change the reply);
  - `save_best_parameters`, `plot_convergence`;
  - the target and project directory checks that exit;
  - the clock (the timestamp is an input).
- The per-case outer loop of the main block and `optimizer.get_result()`.
- PfcServer.Package: an exception raised inside the excavation loop is the
  same input as one raised earlier in the run. The model does not say in
  which step it happened.
- ClientDispatch.DispatchLoop: a worker that raises (`MiningClient.Worker`
  returning `Raised` for a cached file that cannot be decoded) re-raises from
  `future.result()` at mining_optimization_client.py:199. The main block has
  no handler, so the whole client run ends there. The dispatch model, and
  `ClientDispatch.Run`, tell every completion and carry on, so they do not
  capture a run cut short by a raising worker.
- UtilitiesMining.SetupResultsDirectory, PfcServer.TempRunDir, PfcServer.CsvDir,
  PfcServer.CsvPath: `os.path.join` is modelled with the POSIX separator `/`.
  The system evidently runs on Windows (the `F:\` project directory and
  `itasca` in `PFC_model/pfc_server2.py`), where the separator is `\`.
  Only the path text differs; the server paths reach nothing but the
  CSV-reading oracle, so no property depends on them.
- KnowledgeBaseManager.KnowledgeBase.WarmStart: `listing` is the result of
  `os.listdir` in its order. A file that vanishes between the listing and
  the read is skipped, like any failure.

## Findings

| source | as written | input that shows it | evidently intended | confidence | as-written member | corrected member |
|---|---|---|---|---|---|---|
| mining_optimization_client.py:197-214 | the `while total_jobs_dispatched < N_CALLS` loop exits as soon as the 50th job is dispatched. The jobs still in flight are then awaited by the executor and saved to the knowledge base, but their results are never told to the optimizer | `N_CALLS = 50`, `N_INITIAL_POINTS = 5`, no prior data, any completion order: 50 simulations run, 45 results are told (48 of 50 with prior data) | every dispatched job's result is told to the optimizer before `get_result()` | high, not executed | ClientDispatch.LastBatchNeverTold | ClientDispatch.DispatchLoopDrained |
