/** The simulation server's own logic (`PFC_model/pfc_server.py`): the layer
    geometry, the excavation schedule and the per-step data it collects, the
    merge of the client's parameters into the default FISH parameter list,
    the run id, and the packaging of the reply.

    The PFC engine is foreign: an exception it raises anywhere in the run is
    the input `failure` (its message); the displacement CSV it leaves behind
    is read through `readCsv`. Number formatting, `round(x, 4)`, `repr` and
    md5 are foreign functions in `ServerEnv`. */
module PfcServer {
  import opened Json
  import opened Text
  import opened Dicts

  // ---------------------------------------------------------------------------
  // DEFAULT_CONFIG
  // ---------------------------------------------------------------------------

  /** The entries of `DEFAULT_CONFIG` the modelled code reads. The FISH
      parameter list is a list of pairs and may repeat a name. */
  datatype Config = Config(
    deterministic: bool,
    modelWidth: real,
    rockLayerThicknesses: seq<real>,
    leftPillarWidth: real,
    rightPillarWidth: real,
    excavationStepWidth: real,
    excavationLayerGroup: string,
    equilibriumParams: seq<(string, Json)>,
    solveCyclesPerStep: int,
    solveRatioTarget: real)

  const DefaultThicknesses: seq<real> := [
    20.50, 3.00, 7.50, 30.00, 8.00, 7.50, 6.50, 6.00, 4.50, 7.00,
    9.00, 6.50, 6.50, 7.50, 2.00, 9.00, 6.00, 3.00, 3.50, 5.50]

  const DefaultEquilibriumParams: seq<(string, Json)> := [
    ("pb_modules", JFloat(1e9)), ("emod000", JFloat(15e9)), ("ten_", JFloat(0.75e6)), ("coh_", JFloat(0.75e6)),
    ("fric", JFloat(0.1)), ("kratio", JFloat(2.0)), ("key_pb_modules", JFloat(3e9)), ("key_emod000", JFloat(45e9)),
    ("key_ten_", JFloat(4.5e6)), ("key_coh_", JFloat(4.5e6)), ("key_fric", JFloat(0.3)), ("key_kratio", JFloat(2.0)),
    ("pb_modules_1", JFloat(1e8)), ("emod111", JFloat(1e8)), ("ten1_", JFloat(1e5)), ("coh1_", JFloat(1e5)),
    ("fric1", JFloat(0.1)), ("kratio", JFloat(2.0)), ("dpnr", JFloat(0.5)), ("dpsr", JFloat(0.0))]

  const DefaultConfig: Config := Config(
    true, 250.0, DefaultThicknesses, 45.0, 45.0, 10.0, "11", DefaultEquilibriumParams, 8000, 1e-5)

  const ProjectDirectory: string := "F:\\PFCprj\\PFC_Twin_Optimization\\PFC_model"

  /** The foreign functions the server relies on. */
  datatype ServerEnv = ServerEnv(
    codec: Codec,
    round4: real -> real,                      // round(x, 4)
    format2: real -> string,                   // f"{x:.2f}"
    reprItems: seq<(string, Json)> -> string,  // str() of a list of pairs
    md5Hex: string -> string,                  // hashlib.md5(...).hexdigest()
    readCsv: string -> Option<string>)         // the file's text, None when it does not exist

  // ---------------------------------------------------------------------------
  // calculate_geology
  // ---------------------------------------------------------------------------

  function Sum(s: seq<real>): real
  {
    if s == [] then 0.0 else s[0] + Sum(s[1..])
  }

  lemma {:induction false} SumConcat(a: seq<real>, b: seq<real>)
    ensures Sum(a + b) == Sum(a) + Sum(b)
    decreases |a|
  {
    if a == [] {
      assert a + b == b;
    } else {
      assert (a + b)[1..] == a[1..] + b;
      SumConcat(a[1..], b);
    }
  }

  function Reverse<T>(s: seq<T>): (r: seq<T>)
    ensures |r| == |s|
    ensures forall i :: 0 <= i < |s| ==> r[i] == s[|s| - 1 - i]
  {
    seq(|s|, i requires 0 <= i < |s| => s[|s| - 1 - i])
  }

  lemma {:induction false} SumReverse(s: seq<real>)
    ensures Sum(Reverse(s)) == Sum(s)
    decreases |s|
  {
    if s != [] {
      assert Reverse(s) == Reverse(s[1..]) + [s[0]];
      SumReverse(s[1..]);
      SumConcat(Reverse(s[1..]), [s[0]]);
    }
  }

  /** The first `i + 1` layers from the top are the last `i + 1` configured. */
  lemma ReversedPrefix(t: seq<real>, i: nat)
    requires i < |t|
    ensures Reverse(t)[..i + 1] == Reverse(t[|t| - 1 - i..])
  {
  }

  /** `(cumulative_heights, model_height)`: the height of every layer
      boundary counted from the top of the reversed list, rounded, and the
      total thickness. */
  function CalculateGeology(thicknesses: seq<real>, round4: real -> real): (r: (seq<real>, real))
    ensures |r.0| == |thicknesses|
    ensures forall i :: 0 <= i < |thicknesses| ==> r.0[i] == round4(Sum(thicknesses[|thicknesses| - 1 - i..]))
    ensures r.1 == Sum(thicknesses)
  {
    var modelHeight := Sum(thicknesses);
    var reversed := Reverse(thicknesses);
    var cumulative := seq(|reversed|, i requires 0 <= i < |reversed| => round4(Sum(reversed[..i + 1])));
    forall i | 0 <= i < |thicknesses|
      ensures cumulative[i] == round4(Sum(thicknesses[|thicknesses| - 1 - i..]))
    {
      ReversedPrefix(thicknesses, i);
      SumReverse(thicknesses[|thicknesses| - 1 - i..]);
    }
    (cumulative, modelHeight)
  }

  /** The last boundary is the whole model height, up to rounding. */
  lemma GeologyTopIsModelHeight(thicknesses: seq<real>, round4: real -> real)
    requires |thicknesses| > 0
    ensures var (cumulative, height) := CalculateGeology(thicknesses, round4);
      cumulative[|thicknesses| - 1] == round4(height)
  {
    assert thicknesses[|thicknesses| - 1 - (|thicknesses| - 1)..] == thicknesses;
  }

  /** With a rounding that never decreases, thicker is never lower: the
      boundaries climb. */
  lemma GeologyAscends(thicknesses: seq<real>, round4: real -> real, i: nat, j: nat)
    requires forall k :: 0 <= k < |thicknesses| ==> thicknesses[k] >= 0.0
    requires forall x: real, y: real :: x <= y ==> round4(x) <= round4(y)
    requires i <= j < |thicknesses|
    ensures CalculateGeology(thicknesses, round4).0[i] <= CalculateGeology(thicknesses, round4).0[j]
  {
    var n := |thicknesses|;
    var short, long := thicknesses[n - 1 - i..], thicknesses[n - 1 - j..];
    assert long == long[..j - i] + short;
    SumConcat(long[..j - i], short);
    SumNonNegative(long[..j - i]);
  }

  lemma {:induction false} SumNonNegative(s: seq<real>)
    requires forall k :: 0 <= k < |s| ==> s[k] >= 0.0
    ensures Sum(s) >= 0.0
    decreases |s|
  {
    if s != [] {
      SumNonNegative(s[1..]);
    }
  }

  // ---------------------------------------------------------------------------
  // The excavation schedule of run_excavation_and_collect_data
  // ---------------------------------------------------------------------------

  function StartX(c: Config): real { c.leftPillarWidth - c.modelWidth / 2.0 }
  function EndX(c: Config): real { c.modelWidth / 2.0 - c.rightPillarWidth }

  /** `int(x)`: truncation toward zero. */
  function Trunc(x: real): (r: int)
    ensures x >= 0.0 ==> 0 <= r && r as real <= x < r as real + 1.0
    ensures x < 0.0 ==> r <= 0 && r as real - 1.0 < x <= r as real
  {
    if x >= 0.0 then x.Floor else -((-x).Floor)
  }

  /** `num_steps`; None where `(end_x - start_x) / step_width` raises
      `ZeroDivisionError`. */
  function StepCount(c: Config): (n: Option<int>)
    ensures n.None? <==> c.excavationStepWidth == 0.0
    ensures n.Some? ==> n.value == Trunc((EndX(c) - StartX(c)) / c.excavationStepWidth)
  {
    if c.excavationStepWidth == 0.0 then None
    else Some(Trunc((EndX(c) - StartX(c)) / c.excavationStepWidth))
  }

  /** The iterations of `range(num_steps)`. */
  function Iterations(n: int): nat
  {
    if n < 0 then 0 else n
  }

  function ExcavationPos(c: Config, i: nat): real
  {
    StartX(c) + i as real * c.excavationStepWidth
  }

  function ExcavationEnd(c: Config, i: nat): real
  {
    ExcavationPos(c, i) + c.excavationStepWidth
  }

  /** Neighbouring excavation windows abut: each step starts where the
      previous one ended, `i` widths from the left pillar. */
  lemma WindowsAbut(c: Config, i: nat)
    ensures ExcavationEnd(c, i) == ExcavationPos(c, i + 1)
    ensures ExcavationEnd(c, i) - ExcavationPos(c, i) == c.excavationStepWidth
  {
    assert (i + 1) as real * c.excavationStepWidth == i as real * c.excavationStepWidth + c.excavationStepWidth;
  }

  /** The default model excavates 16 windows of 10 from -80 to 80. */
  lemma DefaultSchedule()
    ensures StartX(DefaultConfig) == -80.0 && EndX(DefaultConfig) == 80.0
    ensures StepCount(DefaultConfig) == Some(16)
  {
    assert (EndX(DefaultConfig) - StartX(DefaultConfig)) / DefaultConfig.excavationStepWidth == 16.0;
  }

  function StepKey(i: nat): string
  {
    "step_" + NatToString(i)
  }

  lemma StepKeyInjective(i: nat, j: nat)
    requires StepKey(i) == StepKey(j)
    ensures i == j
  {
    assert StepKey(i)[5..] == NatToString(i);
    assert StepKey(j)[5..] == NatToString(j);
    NatToStringInjective(i, j);
  }

  /** Where `plot_y_displacement_heatmap` leaves the CSV of step `i`. */
  function CsvPath(c: Config, csvDir: string, i: nat, env: ServerEnv): string
  {
    var stepName := "excavation_face_" + env.format2(ExcavationEnd(c, i));
    PathJoin(csvDir, "resampled_displacement_" + stepName + ".csv")
  }

  /** The text of step `i`'s CSV, or `""` when the file does not exist. */
  function StepContent(c: Config, csvDir: string, i: nat, env: ServerEnv): string
  {
    env.readCsv(CsvPath(c, csvDir, i, env)).GetOr("")
  }

  /** The data collected by the first `n` steps. */
  function StepPrefix(c: Config, csvDir: string, env: ServerEnv, n: nat): Dict<string>
  {
    seq(n, i requires 0 <= i < n => (StepKey(i), StepContent(c, csvDir, i, env)))
  }

  /** `all_steps_data`, or None when the step count divides by zero. */
  function StepData(c: Config, csvDir: string, env: ServerEnv): Option<Dict<string>>
  {
    match StepCount(c)
    case None => None
    case Some(n) => Some(StepPrefix(c, csvDir, env, Iterations(n)))
  }

  /** One more step appends its entry: its key is new. */
  lemma StepAppends(c: Config, csvDir: string, env: ServerEnv, n: nat)
    ensures StepKey(n) !in KeySet(StepPrefix(c, csvDir, env, n))
    ensures Set(StepPrefix(c, csvDir, env, n), StepKey(n), StepContent(c, csvDir, n, env))
         == StepPrefix(c, csvDir, env, n + 1)
  {
    var data := StepPrefix(c, csvDir, env, n);
    forall j | 0 <= j < n ensures data[j].0 != StepKey(n) {
      if data[j].0 == StepKey(n) { StepKeyInjective(j, n); }
    }
    SetAppends(data, StepKey(n), StepContent(c, csvDir, n, env));
  }

  /** No step is called `error`. */
  lemma StepKeysNotError(c: Config, csvDir: string, env: ServerEnv, n: nat)
    ensures "error" !in KeySet(StepPrefix(c, csvDir, env, n))
  {
    var d := StepPrefix(c, csvDir, env, n);
    forall i | 0 <= i < n ensures d[i].0 != "error" {
      assert StepKey(i)[0] == 's';
    }
  }

  /** The collected data depends on the configuration only through its
      geometry. */
  lemma StepDataReadsGeometry(c1: Config, c2: Config, csvDir: string, env: ServerEnv)
    requires c1.modelWidth == c2.modelWidth && c1.excavationStepWidth == c2.excavationStepWidth
    requires c1.leftPillarWidth == c2.leftPillarWidth && c1.rightPillarWidth == c2.rightPillarWidth
    ensures StepData(c1, csvDir, env) == StepData(c2, csvDir, env)
  {
    if StepCount(c1).Some? {
      var n := Iterations(StepCount(c1).value);
      var d1, d2 := StepPrefix(c1, csvDir, env, n), StepPrefix(c2, csvDir, env, n);
      assert StartX(c1) == StartX(c2);
      forall i | 0 <= i < n ensures d1[i] == d2[i] {
        assert ExcavationEnd(c1, i) == ExcavationEnd(c2, i);
        assert CsvPath(c1, csvDir, i, env) == CsvPath(c2, csvDir, i, env);
      }
      assert d1 == d2;
    }
  }

  /** The collected data has exactly the keys `step_0 .. step_{n-1}`, each
      once and in order, and step `i` holds its CSV text or `""`. */
  lemma StepDataKeys(c: Config, csvDir: string, env: ServerEnv)
    requires c.excavationStepWidth != 0.0
    ensures var d := StepData(c, csvDir, env).value;
      && |d| == Iterations(StepCount(c).value)
      && DistinctKeys(d)
      && Keys(d) == seq(|d|, i requires 0 <= i < |d| => StepKey(i))
      && (forall i: nat :: i < |d| ==> Get(d, StepKey(i)) == Some(StepContent(c, csvDir, i, env)))
      && (forall i: nat :: i < |d| ==> (env.readCsv(CsvPath(c, csvDir, i, env)).None? ==> Get(d, StepKey(i)) == Some("")))
  {
    var d := StepData(c, csvDir, env).value;
    forall i, j | 0 <= i < j < |d| ensures d[i].0 != d[j].0 {
      if d[i].0 == d[j].0 { StepKeyInjective(i, j); }
    }
    forall i: nat | i < |d| ensures Get(d, StepKey(i)) == Some(StepContent(c, csvDir, i, env)) {
      GetAt(d, i);
    }
  }

  /** The excavation loop: for each step, collect its CSV text under
      `step_i`, or `""` when the file is missing. */
  method RunExcavation(config: Config, csvDir: string, env: ServerEnv) returns (allStepsData: Option<Dict<string>>)
    ensures allStepsData == StepData(config, csvDir, env)
  {
    var startX := config.leftPillarWidth - config.modelWidth / 2.0;
    var endX := config.modelWidth / 2.0 - config.rightPillarWidth;
    var stepWidth := config.excavationStepWidth;
    if stepWidth == 0.0 {
      return None;
    }
    var numSteps := Trunc((endX - startX) / stepWidth);
    var data: Dict<string> := [];
    var i: nat := 0;
    while i < numSteps
      invariant i <= Iterations(numSteps)
      invariant data == StepPrefix(config, csvDir, env, i)
    {
      var stepKey := StepKey(i);
      var excavationPos := startX + i as real * stepWidth;
      var excavationEnd := excavationPos + stepWidth;
      assert excavationEnd == ExcavationEnd(config, i) by {
        assert startX == StartX(config);
        assert excavationPos == ExcavationPos(config, i);
      }
      var stepName := "excavation_face_" + env.format2(excavationEnd);
      var dataFilepath := PathJoin(csvDir, "resampled_displacement_" + stepName + ".csv");
      assert dataFilepath == CsvPath(config, csvDir, i, env);
      var content := env.readCsv(dataFilepath);
      var csvContent: string;
      if content.Some? {
        csvContent := content.value;
      } else {
        csvContent := "";
      }
      StepAppends(config, csvDir, env, i);
      data := Set(data, stepKey, csvContent);
      i := i + 1;
    }
    allStepsData := Some(data);
  }

  // ---------------------------------------------------------------------------
  // _run_single_optimization_cycle
  // ---------------------------------------------------------------------------

  /** `str(sorted(client_params.items()))` hashed with md5, first 12 hex
      digits. */
  function RunHash(clientParams: Dict<Json>, env: ServerEnv): (r: string)
    ensures |r| <= 12
    ensures |env.md5Hex(env.reprItems(Canonical(clientParams)))| >= 12 ==> |r| == 12
    ensures r <= env.md5Hex(env.reprItems(Canonical(clientParams)))
  {
    Take(env.md5Hex(env.reprItems(Canonical(clientParams))), 12)
  }

  /** The run id does not depend on the order of the client's keys. */
  lemma RunHashIgnoresOrder(p: Dict<Json>, q: Dict<Json>, env: ServerEnv)
    requires DistinctKeys(p) && DistinctKeys(q)
    requires forall kv :: kv in p <==> kv in q
    ensures RunHash(p, env) == RunHash(q, env)
  {
    CanonicalIgnoresOrder(p, q);
  }

  /** `current_params = dict(defaults); current_params[key] = value` for each
      client pair. */
  method MergeParameters(defaults: seq<(string, Json)>, clientParams: Dict<Json>) returns (currentParams: Dict<Json>)
    ensures currentParams == Assign(FromPairs(defaults), clientParams)
  {
    currentParams := FromPairs(defaults);
    var i := 0;
    while i < |clientParams|
      invariant 0 <= i <= |clientParams|
      invariant currentParams == Assign(FromPairs(defaults), clientParams[..i])
    {
      var (key, value) := clientParams[i];
      assert clientParams[..i + 1][..i] == clientParams[..i];
      currentParams := Set(currentParams, key, value);
      i := i + 1;
    }
    assert clientParams[..i] == clientParams;
  }

  /** The merged list holds every default name and every client name, each
      once; the defaults come first in their first-occurrence order; a client
      value overrides, and every other name keeps the value last given to it
      in the defaults. */
  lemma MergeContract(defaults: seq<(string, Json)>, clientParams: Dict<Json>, k: string)
    requires DistinctKeys(clientParams)
    ensures var merged := Assign(FromPairs(defaults), clientParams);
      && DistinctKeys(merged)
      && KeySet(merged) == KeySet(defaults) + KeySet(clientParams)
      && |Keys(merged)| >= |FromPairs(defaults)|
      && Keys(merged)[..|FromPairs(defaults)|] == Keys(FromPairs(defaults))
      && (k in KeySet(clientParams) ==> Get(merged, k) == Get(clientParams, k))
      && (k !in KeySet(clientParams) ==> Get(merged, k) == LastGet(defaults, k))
  {
    LastGetIsGet(clientParams, k);
    ExtendPrefix(Keys(FromPairs(defaults)), Keys(clientParams));
    assert |Keys(FromPairs(defaults))| == |FromPairs(defaults)|;
  }

  /** The configuration handed to the engine: a fresh copy of the defaults
      with the merged parameter list. The defaults themselves are a constant,
      so no run can change them. */
  function RunConfig(merged: Dict<Json>): (c: Config)
    ensures c.equilibriumParams == merged
    ensures c.rockLayerThicknesses == DefaultThicknesses
    ensures c.modelWidth == 250.0 && c.leftPillarWidth == 45.0 && c.rightPillarWidth == 45.0
    ensures c.excavationStepWidth == 10.0 && c.excavationLayerGroup == "11"
  {
    DefaultConfig.(equilibriumParams := merged)
  }

  /** The client cannot move the excavation: every run has the default
      16 steps. */
  lemma ScheduleIndependentOfClient(merged: Dict<Json>)
    ensures StepCount(RunConfig(merged)) == Some(16)
  {
    DefaultSchedule();
  }

  function TempRunDir(runHash: string): string
  {
    PathJoin(PathJoin(ProjectDirectory, "_temp_server_runs"), runHash)
  }

  function CsvDir(runHash: string): string
  {
    PathJoin(TempRunDir(runHash), "csv")
  }

  const NoDataMessage: string := "No data was collected during simulation."
  const ExceptionPrefix: string := "Simulation failed with exception: "
  const ZeroDivisionMessage: string := "float division by zero"

  function ErrorObject(message: string): Json
  {
    JObj(map["error" := JStr(message)])
  }

  function StepsObject(steps: Dict<string>): Json
  {
    JObj(ToMap(MapValues(steps, (s: string) => JStr(s))))
  }

  /** The value the reply encodes: the step data when there is some, an
      object naming the error otherwise. */
  function Package(steps: Option<Dict<string>>, failure: Option<string>): Json
  {
    if failure.Some? then ErrorObject(ExceptionPrefix + failure.value)
    else if steps.None? then ErrorObject(ExceptionPrefix + ZeroDivisionMessage)
    else if steps.value == [] then ErrorObject(NoDataMessage)
    else StepsObject(steps.value)
  }

  /** The reply is the step map, holding every collected step's text, exactly
      when the engine did not fail and some step was collected; otherwise it
      is a single-key `error` object naming what went wrong. */
  lemma PackageShape(steps: Option<Dict<string>>, failure: Option<string>)
    ensures var v := Package(steps, failure);
      && v.JObj?
      && (failure.None? && steps.Some? && steps.value != [] ==>
            && v.fields != map[]
            && v.fields.Keys == KeySet(steps.value)
            && forall k :: k in v.fields ==> Get(steps.value, k) == Some(v.fields[k].s) && v.fields[k].JStr?)
      && (!(failure.None? && steps.Some? && steps.value != []) ==>
            && v.fields.Keys == {"error"}
            && v.fields["error"].JStr?
            && (failure.Some? ==> v.fields["error"].s == ExceptionPrefix + failure.value))
  {
    if failure.None? && steps.Some? && steps.value != [] {
      var f := (s: string) => JStr(s);
      var d := MapValues(steps.value, f);
      assert steps.value[0].0 in KeySet(steps.value);
      forall k ensures KeySet(d) == KeySet(steps.value) && Get(d, k) == if Get(steps.value, k).Some? then Some(JStr(Get(steps.value, k).value)) else None {
        MapValuesGet(steps.value, f, k);
      }
      assert steps.value[0].0 in ToMap(d);
    }
  }

  /** What one cycle produces: the run id, the configuration the engine ran
      with, and the reply text. */
  datatype Cycle = Cycle(runHash: string, runConfig: Config, response: string)

  function CycleOf(clientParams: Dict<Json>, failure: Option<string>, env: ServerEnv): Cycle
  {
    var runHash := RunHash(clientParams, env);
    var config := RunConfig(Assign(FromPairs(DefaultConfig.equilibriumParams), clientParams));
    var steps := StepData(config, CsvDir(runHash), env);
    Cycle(runHash, config, env.codec.dumps(Package(steps, failure)))
  }

  method RunSingleOptimizationCycle(clientParams: Dict<Json>, failure: Option<string>, env: ServerEnv)
    returns (cycle: Cycle)
    ensures cycle == CycleOf(clientParams, failure, env)
  {
    var runHash := RunHash(clientParams, env);
    var currentParams := MergeParameters(DefaultConfig.equilibriumParams, clientParams);
    var runConfig := DefaultConfig.(equilibriumParams := currentParams);
    var response: string;
    if failure.Some? {
      response := env.codec.dumps(ErrorObject(ExceptionPrefix + failure.value));
    } else {
      var allStepsData := RunExcavation(runConfig, CsvDir(runHash), env);
      if allStepsData.None? {
        response := env.codec.dumps(ErrorObject(ExceptionPrefix + ZeroDivisionMessage));
      } else if allStepsData.value != [] {
        response := env.codec.dumps(StepsObject(allStepsData.value));
      } else {
        response := env.codec.dumps(ErrorObject(NoDataMessage));
      }
    }
    cycle := Cycle(runHash, runConfig, response);
  }

  /** Without an engine failure the server always answers with the 16 steps
      `step_0 .. step_15` of the default excavation, whatever the client
      sent. */
  lemma CycleAnswersSixteenSteps(clientParams: Dict<Json>, env: ServerEnv)
    ensures CycleOf(clientParams, None, env).response
         == env.codec.dumps(StepsObject(StepPrefix(DefaultConfig, CsvDir(RunHash(clientParams, env)), env, 16)))
  {
    var c := CycleOf(clientParams, None, env);
    StepDataReadsGeometry(c.runConfig, DefaultConfig, CsvDir(c.runHash), env);
    DefaultSchedule();
  }
}
