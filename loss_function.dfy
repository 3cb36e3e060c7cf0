/** The multi-step loss (`calculate_multi_step_loss`) and its helpers.

    Numerics that live in foreign libraries are parameters in `LossEnv`:
    reading a CSV and melting it into points and values (pandas), aligning
    the simulation onto the target points and taking the RMSE (scipy griddata,
    numpy), and the existence of target files. Arithmetic is over `real`. */
module LossFunction {
  import opened Json
  import opened Text

  /** The loss that stands for "no usable evaluation". */
  const Penalty: real := 1e10

  datatype Point = Point(x: real, y: real)

  /** A displacement table melted into one point and one value per cell. */
  datatype Field = Field(points: seq<Point>, values: seq<real>)

  /** What aligning and comparing one step gives: a number, NaN, or an exception. */
  datatype StepLoss = Loss(value: real) | NaN | Fail

  /** The keyword arguments `**transform` passed to `_process_displacement_data`. */
  type Transform = map<string, real>

  const TransformKeywords: set<string> := {"x_shift", "y_shift", "x_scale", "y_scale"}

  datatype LossEnv = LossEnv(
    targetDir: string,
    targetTransform: Transform,          // `target_transform`, None being the empty dict
    simTransform: Transform,             // `sim_transform`, likewise
    stepWeights: map<string, real>,      // `step_weights`, None being the empty dict
    fileExists: string -> bool,          // os.path.exists
    readTarget: string -> Option<Field>, // read_csv + melt of a target file; None if it raises
    readSim: string -> Option<Field>,    // the same on io.StringIO(csv text)
    align: (Field, Field) -> StepLoss,   // griddata(..., fill_value=0) + RMSE
    codec: Codec)

  // ---------------------------------------------------------------------------
  // _process_displacement_data
  // ---------------------------------------------------------------------------

  function Param(t: Transform, name: string, default: real): real
  {
    if name in t then t[name] else default
  }

  /** `points[:, 0] *= x_scale; points[:, 1] *= y_scale`. */
  function Scale(p: Point, t: Transform): Point
  {
    Point(p.x * Param(t, "x_scale", 1.0), p.y * Param(t, "y_scale", 1.0))
  }

  /** `points[:, 0] += x_shift; points[:, 1] += y_shift`. */
  function Shift(p: Point, t: Transform): Point
  {
    Point(p.x + Param(t, "x_shift", 0.0), p.y + Param(t, "y_shift", 0.0))
  }

  /** Scale first, then shift (defaults: scale 1, shift 0). */
  function Affine(p: Point, t: Transform): Point
  {
    Shift(Scale(p, t), t)
  }

  /** Undoes `Affine` when both scales are non-zero. */
  function Unaffine(q: Point, t: Transform): Point
    requires Param(t, "x_scale", 1.0) != 0.0 && Param(t, "y_scale", 1.0) != 0.0
  {
    Point((q.x - Param(t, "x_shift", 0.0)) / Param(t, "x_scale", 1.0),
          (q.y - Param(t, "y_shift", 0.0)) / Param(t, "y_scale", 1.0))
  }

  lemma UndoScaleShift(a: real, scale: real, shift: real, v: real)
    requires scale != 0.0 && v == a * scale + shift
    ensures (v - shift) / scale == a
  {
    assert v - shift == a * scale;
  }

  /** With non-zero scales the transform loses nothing: shifting back and
      dividing by the scale recovers every original point. */
  lemma AffineInvertible(p: Point, t: Transform)
    requires Param(t, "x_scale", 1.0) != 0.0 && Param(t, "y_scale", 1.0) != 0.0
    ensures Unaffine(Affine(p, t), t) == p
  {
    var q := Affine(p, t);
    UndoScaleShift(p.x, Param(t, "x_scale", 1.0), Param(t, "x_shift", 0.0), q.x);
    UndoScaleShift(p.y, Param(t, "y_scale", 1.0), Param(t, "y_shift", 0.0), q.y);
  }

  /** A scale of 1 and a shift of 0 leave a point where it is, which is why
      the source may skip either update. */
  lemma NeutralParts(p: Point, t: Transform)
    ensures Param(t, "x_scale", 1.0) == 1.0 && Param(t, "y_scale", 1.0) == 1.0 ==> Scale(p, t) == p
    ensures Param(t, "x_shift", 0.0) == 0.0 && Param(t, "y_shift", 0.0) == 0.0 ==> Shift(p, t) == p
  {
  }

  /** The in-place update of `points`: columns scaled when a scale is not 1,
      then shifted when a shift is not 0. */
  method TransformPoints(points: array<Point>, t: Transform)
    modifies points
    ensures forall i :: 0 <= i < points.Length ==> points[i] == Affine(old(points[i]), t)
  {
    var xScale, yScale := Param(t, "x_scale", 1.0), Param(t, "y_scale", 1.0);
    var xShift, yShift := Param(t, "x_shift", 0.0), Param(t, "y_shift", 0.0);
    if xScale != 1.0 || yScale != 1.0 {
      var i := 0;
      while i < points.Length
        invariant 0 <= i <= points.Length
        invariant forall j :: 0 <= j < i ==> points[j] == Scale(old(points[j]), t)
        invariant forall j :: i <= j < points.Length ==> points[j] == old(points[j])
      {
        points[i] := Point(points[i].x * xScale, points[i].y * yScale);
        i := i + 1;
      }
    } else {
      forall j | 0 <= j < points.Length ensures points[j] == Scale(old(points[j]), t) {
        NeutralParts(points[j], t);
      }
    }
    if xShift != 0.0 || yShift != 0.0 {
      var i := 0;
      while i < points.Length
        invariant 0 <= i <= points.Length
        invariant forall j :: 0 <= j < i ==> points[j] == Affine(old(points[j]), t)
        invariant forall j :: i <= j < points.Length ==> points[j] == Scale(old(points[j]), t)
      {
        points[i] := Point(points[i].x + xShift, points[i].y + yShift);
        i := i + 1;
      }
    } else {
      forall j | 0 <= j < points.Length ensures points[j] == Affine(old(points[j]), t) {
        NeutralParts(Scale(old(points[j]), t), t);
      }
    }
  }

  function Abs(r: real): real
  {
    if r < 0.0 then -r else r
  }

  /** `np.max(np.abs(values))`. */
  function MaxAbs(values: seq<real>): (m: real)
    requires |values| > 0
    ensures forall i :: 0 <= i < |values| ==> Abs(values[i]) <= m
    ensures exists i :: 0 <= i < |values| && Abs(values[i]) == m
  {
    if |values| == 1 then Abs(values[0])
    else
      var rest := MaxAbs(values[1..]);
      assert forall i :: 1 <= i < |values| ==> values[i] == values[1..][i - 1];
      if Abs(values[0]) >= rest then Abs(values[0]) else rest
  }

  /** `values / max_abs_val if max_abs_val > 1e-9 else values`; None when the
      table is empty, where `np.max` raises. */
  function Normalize(values: seq<real>): (r: Option<seq<real>>)
    ensures r.None? <==> |values| == 0
    ensures r.Some? ==> |r.value| == |values|
  {
    if |values| == 0 then None
    else
      var m := MaxAbs(values);
      if m > 1e-9 then Some(seq(|values|, i requires 0 <= i < |values| => values[i] / m))
      else Some(values)
  }

  lemma DivLeOne(v: real, m: real)
    requires m > 0.0 && v <= m
    ensures v / m <= 1.0
  {
  }

  lemma DivGeMinusOne(v: real, m: real)
    requires m > 0.0 && -m <= v
    ensures -1.0 <= v / m
  {
  }

  lemma DivSelf(m: real)
    requires m > 0.0
    ensures m / m == 1.0 && (-m) / m == -1.0
  {
  }

  lemma DivideByMax(v: real, m: real)
    requires m > 0.0 && Abs(v) <= m
    ensures Abs(v / m) <= 1.0
    ensures Abs(v) == m ==> Abs(v / m) == 1.0
  {
    DivLeOne(v, m);
    DivGeMinusOne(v, m);
    DivSelf(m);
  }

  /** After normalisation every value lies in [-1, 1] and the largest
      magnitude is exactly 1; below the 1e-9 guard the values are returned
      unchanged. */
  lemma {:induction false} NormalizeBounds(values: seq<real>)
    requires |values| > 0
    ensures MaxAbs(values) > 1e-9 ==>
      (forall i :: 0 <= i < |values| ==> Abs(Normalize(values).value[i]) <= 1.0)
      && (exists i :: 0 <= i < |values| && Abs(Normalize(values).value[i]) == 1.0)
    ensures MaxAbs(values) <= 1e-9 ==> Normalize(values) == Some(values)
  {
    var m := MaxAbs(values);
    if m > 1e-9 {
      var r := Normalize(values).value;
      forall i | 0 <= i < |values| ensures Abs(r[i]) <= 1.0 {
        DivideByMax(values[i], m);
      }
      var k :| 0 <= k < |values| && Abs(values[k]) == m;
      DivideByMax(values[k], m);
      assert Abs(r[k]) == 1.0;
    }
  }

  /** The value `_process_displacement_data` returns: None when the source
      could not be read or is empty. */
  function Processed(source: Option<Field>, t: Transform): Option<Field>
  {
    match source
    case None => None
    case Some(f) =>
      match Normalize(f.values)
      case None => None
      case Some(nv) => Some(Field(seq(|f.points|, i requires 0 <= i < |f.points| => Affine(f.points[i], t)), nv))
  }

  method ProcessDisplacementData(source: Option<Field>, t: Transform) returns (r: Option<Field>)
    ensures r == Processed(source, t)
  {
    if source.None? {
      return None;
    }
    var f := source.value;
    var points := new Point[|f.points|](i requires 0 <= i < |f.points| => f.points[i]);
    TransformPoints(points, t);
    var nv := Normalize(f.values);
    if nv.None? {
      return None;
    }
    r := Some(Field(points[..], nv.value));
    assert points[..] == seq(|f.points|, i requires 0 <= i < |f.points| => Affine(f.points[i], t));
  }

  // ---------------------------------------------------------------------------
  // _calculate_single_step_loss
  // ---------------------------------------------------------------------------

  /** A keyword the helper does not take makes the call raise `TypeError`. */
  predicate KeywordsAccepted(t: Transform)
  {
    t.Keys <= TransformKeywords
  }

  /** The outcome of `_calculate_single_step_loss`: any failure to process the
      target or the simulation is an exception (`Fail`). */
  function SingleStep(targetPath: string, simCsv: string, env: LossEnv): (r: StepLoss)
    ensures !KeywordsAccepted(env.targetTransform) ==> r == Fail
    ensures Processed(env.readTarget(targetPath), env.targetTransform).None? ==> r == Fail
    ensures r != Fail ==>
      && Processed(env.readTarget(targetPath), env.targetTransform).Some?
      && Processed(env.readSim(simCsv), env.simTransform).Some?
      && r == env.align(Processed(env.readTarget(targetPath), env.targetTransform).value,
                        Processed(env.readSim(simCsv), env.simTransform).value)
  {
    if !KeywordsAccepted(env.targetTransform) then Fail
    else match Processed(env.readTarget(targetPath), env.targetTransform)
      case None => Fail
      case Some(target) =>
        if !KeywordsAccepted(env.simTransform) then Fail
        else match Processed(env.readSim(simCsv), env.simTransform)
          case None => Fail
          case Some(sim) => env.align(target, sim)
  }

  method CalculateSingleStepLoss(targetPath: string, simCsv: string, env: LossEnv) returns (r: StepLoss)
    ensures r == SingleStep(targetPath, simCsv, env)
  {
    if !KeywordsAccepted(env.targetTransform) {
      return Fail;
    }
    var target := ProcessDisplacementData(env.readTarget(targetPath), env.targetTransform);
    if target.None? {
      return Fail;
    }
    if !KeywordsAccepted(env.simTransform) {
      return Fail;
    }
    var sim := ProcessDisplacementData(env.readSim(simCsv), env.simTransform);
    if sim.None? {
      return Fail;
    }
    r := env.align(target.value, sim.value);
  }

  // ---------------------------------------------------------------------------
  // calculate_multi_step_loss
  // ---------------------------------------------------------------------------

  /** `os.path.join(target_data_dir, f"{step_key}.csv")`. */
  function TargetPath(env: LossEnv, stepKey: string): string
  {
    PathJoin(env.targetDir, stepKey + ".csv")
  }

  /** `step_weights.get(step_key, 1.0) if step_weights else 1.0`. */
  function Weight(env: LossEnv, stepKey: string): real
  {
    if stepKey in env.stepWeights then env.stepWeights[stepKey] else 1.0
  }

  /** What one step adds to the totals: nothing, a (loss, weight) pair, or an
      exception that ends the whole computation. */
  datatype Contribution = Skip | Add(loss: real, weight: real) | Raise

  function StepContribution(stepKey: string, sim: Json, env: LossEnv): Contribution
  {
    var path := TargetPath(env, stepKey);
    if !env.fileExists(path) then Skip
    else if Falsy(sim) then Skip
    else if !sim.JStr? then Raise  // io.StringIO of a non-string raises TypeError
    else
      match SingleStep(path, sim.s, env)
      case Fail => Raise
      case NaN => Skip
      case Loss(l) => Add(l, Weight(env, stepKey))
  }

  /** A step is skipped exactly when its target is missing, its payload is
      empty or its loss is NaN; it raises exactly when its payload is not a
      string or the single-step loss fails; otherwise its loss is added with
      its configured weight. */
  lemma StepContributionCases(stepKey: string, sim: Json, env: LossEnv)
    ensures StepContribution(stepKey, sim, env).Skip? <==>
      !env.fileExists(TargetPath(env, stepKey))
      || Falsy(sim)
      || (sim.JStr? && SingleStep(TargetPath(env, stepKey), sim.s, env).NaN?)
    ensures StepContribution(stepKey, sim, env).Raise? <==>
      env.fileExists(TargetPath(env, stepKey)) && !Falsy(sim)
      && (!sim.JStr? || SingleStep(TargetPath(env, stepKey), sim.s, env).Fail?)
    ensures StepContribution(stepKey, sim, env).Add? ==>
      && StepContribution(stepKey, sim, env).weight == Weight(env, stepKey)
      && sim.JStr? && SingleStep(TargetPath(env, stepKey), sim.s, env) == Loss(StepContribution(stepKey, sim, env).loss)
  {
  }

  /** The totals so far after one more step. */
  function Accumulate(acc: Option<seq<(real, real)>>, c: Contribution): Option<seq<(real, real)>>
  {
    match acc
    case None => None
    case Some(pairs) =>
      match c
      case Skip => Some(pairs)
      case Add(l, w) => Some(pairs + [(l, w)])
      case Raise => None
  }

  predicate KeysIn(keys: seq<string>, obj: map<string, Json>)
  {
    forall j :: 0 <= j < |keys| ==> keys[j] in obj
  }

  /** The (loss, weight) pairs of the first `n` steps of `keys` in order, or
      None once one of them raises. */
  function Contributions(keys: seq<string>, n: nat, obj: map<string, Json>, env: LossEnv): Option<seq<(real, real)>>
    requires n <= |keys| && KeysIn(keys, obj)
  {
    if n == 0 then Some([])
    else Accumulate(Contributions(keys, n - 1, obj, env), StepContribution(keys[n - 1], obj[keys[n - 1]], env))
  }

  lemma ContributionsNext(keys: seq<string>, i: nat, obj: map<string, Json>, env: LossEnv)
    requires i < |keys| && KeysIn(keys, obj)
    ensures Contributions(keys, i + 1, obj, env)
         == Accumulate(Contributions(keys, i, obj, env), StepContribution(keys[i], obj[keys[i]], env))
  {
  }

  /** `step_loss * weight`. */
  function Weighted(l: real, w: real): real
  {
    l * w
  }

  function SumWeighted(c: seq<(real, real)>): real
  {
    if c == [] then 0.0 else SumWeighted(c[..|c| - 1]) + Weighted(c[|c| - 1].0, c[|c| - 1].1)
  }

  function SumWeights(c: seq<(real, real)>): real
  {
    if c == [] then 0.0 else SumWeights(c[..|c| - 1]) + c[|c| - 1].1
  }

  lemma SumsSnoc(c: seq<(real, real)>, l: real, w: real)
    ensures SumWeighted(c + [(l, w)]) == SumWeighted(c) + Weighted(l, w)
    ensures SumWeights(c + [(l, w)]) == SumWeights(c) + w
  {
    assert (c + [(l, w)])[..|c|] == c;
  }

  lemma SortedKeysIn(obj: map<string, Json>)
    ensures KeysIn(SortedSet(obj.Keys), obj)
  {
  }

  /** The weighted mean of the pairs, or the penalty when a step raised or
      the weights sum to zero. */
  function Average(r: Option<seq<(real, real)>>): real
  {
    match r
    case None => Penalty
    case Some(c) => if SumWeights(c) == 0.0 then Penalty else SumWeighted(c) / SumWeights(c)
  }

  /** The loss of a decoded step dict. */
  function LossOfObject(obj: map<string, Json>, env: LossEnv): real
  {
    var keys := SortedSet(obj.Keys);
    Average(Contributions(keys, |keys|, obj, env))
  }

  /** The loss of a JSON text: anything but a decodable object is the penalty. */
  function MultiStepLoss(simStepsJson: string, env: LossEnv): real
  {
    match env.codec.parse(simStepsJson)
    case Some(JObj(obj)) => LossOfObject(obj, env)
    case _ => Penalty
  }

  /** The body of the loop for one step key: the existence check, the empty
      payload check, the single-step loss (whose exceptions end the whole
      computation) and the NaN check. */
  method EvaluateStep(stepKey: string, sim: Json, env: LossEnv) returns (c: Contribution)
    ensures c == StepContribution(stepKey, sim, env)
  {
    var targetPath := TargetPath(env, stepKey);
    if !env.fileExists(targetPath) {
      return Skip;
    }
    if Falsy(sim) {
      return Skip;
    }
    if !sim.JStr? {
      return Raise;
    }
    var stepLoss := CalculateSingleStepLoss(targetPath, sim.s, env);
    if stepLoss.Fail? {
      return Raise;
    }
    if stepLoss.NaN? {
      return Skip;
    }
    return Add(stepLoss.value, Weight(env, stepKey));
  }

  method CalculateMultiStepLoss(simStepsJson: string, env: LossEnv) returns (loss: real)
    ensures loss == MultiStepLoss(simStepsJson, env)
  {
    var parsed := env.codec.parse(simStepsJson);
    if !(parsed.Some? && parsed.value.JObj?) {
      return Penalty;
    }
    loss := LossOfSteps(parsed.value.fields, env);
  }

  /** The weighted average over the sorted step keys of a decoded dict. */
  method LossOfSteps(obj: map<string, Json>, env: LossEnv) returns (loss: real)
    ensures loss == LossOfObject(obj, env)
  {
    var keys := SortedSet(obj.Keys);
    assert KeysIn(keys, obj);
    var raised, totalLoss, totalWeight := SumSteps(keys, obj, env);
    if raised {
      return Penalty;
    }
    if totalWeight == 0.0 {
      return Penalty;
    }
    return totalLoss / totalWeight;
  }

  /** The loop over the step keys: the weighted sum of the losses and the sum
      of the weights, or `raised` when a step raises. */
  method SumSteps(keys: seq<string>, obj: map<string, Json>, env: LossEnv)
    returns (raised: bool, totalLoss: real, totalWeight: real)
    requires KeysIn(keys, obj)
    ensures raised <==> Contributions(keys, |keys|, obj, env).None?
    ensures !raised ==>
      && totalLoss == SumWeighted(Contributions(keys, |keys|, obj, env).value)
      && totalWeight == SumWeights(Contributions(keys, |keys|, obj, env).value)
  {
    raised, totalLoss, totalWeight := false, 0.0, 0.0;
    ghost var included: seq<(real, real)> := [];
    var i := 0;
    while i < |keys|
      invariant 0 <= i <= |keys|
      invariant Contributions(keys, i, obj, env) == Some(included)
      invariant totalLoss == SumWeighted(included) && totalWeight == SumWeights(included)
    {
      var c := EvaluateStep(keys[i], obj[keys[i]], env);
      ContributionsNext(keys, i, obj, env);
      match c {
        case Skip =>
        case Raise =>
          MissingStepsRaise(keys, i + 1, obj, env);
          return true, 0.0, 0.0;
        case Add(stepLoss, weight) =>
          SumsSnoc(included, stepLoss, weight);
          totalLoss := totalLoss + Weighted(stepLoss, weight);
          totalWeight := totalWeight + weight;
          included := included + [(stepLoss, weight)];
      }
      i := i + 1;
    }
  }

  /** Once a prefix raises, the whole key list does. */
  lemma {:induction false} MissingStepsRaise(keys: seq<string>, n: nat, obj: map<string, Json>, env: LossEnv)
    requires n <= |keys| && KeysIn(keys, obj)
    requires Contributions(keys, n, obj, env).None?
    ensures Contributions(keys, |keys|, obj, env).None?
    decreases |keys| - n
  {
    if n < |keys| {
      MissingStepsRaise(keys, n + 1, obj, env);
    }
  }

  // ---------------------------------------------------------------------------
  // Properties of the multi-step loss
  // ---------------------------------------------------------------------------

  /** A step that raises anywhere in the key list makes the whole list raise. */
  lemma {:induction false} RaiseAnywhere(keys: seq<string>, n: nat, j: nat, obj: map<string, Json>, env: LossEnv)
    requires j < n <= |keys| && KeysIn(keys, obj)
    requires StepContribution(keys[j], obj[keys[j]], env).Raise?
    ensures Contributions(keys, n, obj, env).None?
    decreases n
  {
    if j < n - 1 {
      RaiseAnywhere(keys, n - 1, j, obj, env);
    }
  }

  /** `calculate_multi_step_loss` returns the penalty as soon as any step
      raises, whichever position that step has. */
  lemma AnyRaiseIsPenalty(obj: map<string, Json>, env: LossEnv, k: string)
    requires k in obj && StepContribution(k, obj[k], env).Raise?
    ensures LossOfObject(obj, env) == Penalty
  {
    var keys := SortedSet(obj.Keys);
    assert k in keys;
    var j :| 0 <= j < |keys| && keys[j] == k;
    RaiseAnywhere(keys, |keys|, j, obj, env);
  }

  lemma {:induction false} AllSkippedIsEmpty(keys: seq<string>, n: nat, obj: map<string, Json>, env: LossEnv)
    requires n <= |keys| && KeysIn(keys, obj)
    requires forall j :: 0 <= j < n ==> StepContribution(keys[j], obj[keys[j]], env).Skip?
    ensures Contributions(keys, n, obj, env) == Some([])
  {
    if n > 0 {
      AllSkippedIsEmpty(keys, n - 1, obj, env);
    }
  }

  /** When no step of the dict has a target file, nothing is compared and
      the result is the penalty. */
  lemma NoTargetIsPenalty(obj: map<string, Json>, env: LossEnv)
    requires forall k :: k in obj ==> !env.fileExists(TargetPath(env, k))
    ensures LossOfObject(obj, env) == Penalty
  {
    var keys := SortedSet(obj.Keys);
    AllSkippedIsEmpty(keys, |keys|, obj, env);
  }

  /** Every (loss, weight) pair summed comes from a step whose loss lies in
      [lo, hi] and whose weight is not negative, when all steps are such. */
  predicate PairsWithin(c: seq<(real, real)>, lo: real, hi: real)
  {
    forall p :: p in c ==> lo <= p.0 <= hi && p.1 >= 0.0
  }

  predicate AddsWithin(obj: map<string, Json>, env: LossEnv, lo: real, hi: real)
  {
    forall k :: k in obj && StepContribution(k, obj[k], env).Add? ==>
      lo <= StepContribution(k, obj[k], env).loss <= hi
  }

  predicate WeightsNonNegative(env: LossEnv)
  {
    forall k :: k in env.stepWeights ==> env.stepWeights[k] >= 0.0
  }

  lemma {:induction false} ContributionsWithin(keys: seq<string>, n: nat, obj: map<string, Json>, env: LossEnv, lo: real, hi: real)
    requires n <= |keys| && KeysIn(keys, obj)
    requires AddsWithin(obj, env, lo, hi) && WeightsNonNegative(env)
    ensures Contributions(keys, n, obj, env).Some? ==> PairsWithin(Contributions(keys, n, obj, env).value, lo, hi)
  {
    if n > 0 {
      ContributionsWithin(keys, n - 1, obj, env, lo, hi);
      var k := keys[n - 1];
      var c := StepContribution(k, obj[k], env);
      if c.Add? {
        StepContributionCases(k, obj[k], env);
      }
    }
  }

  lemma MulBounds(l: real, w: real, lo: real, hi: real)
    requires lo <= l <= hi && w >= 0.0
    ensures lo * w <= Weighted(l, w) <= hi * w
  {
  }

  lemma Distribute(a: real, x: real, y: real)
    ensures a * (x + y) == a * x + a * y
  {
  }

  lemma {:induction false} SumsWithin(c: seq<(real, real)>, lo: real, hi: real)
    requires PairsWithin(c, lo, hi)
    ensures SumWeights(c) >= 0.0
    ensures lo * SumWeights(c) <= SumWeighted(c) <= hi * SumWeights(c)
  {
    if c != [] {
      var init, last := c[..|c| - 1], c[|c| - 1];
      assert PairsWithin(init, lo, hi) by {
        forall p | p in init ensures lo <= p.0 <= hi && p.1 >= 0.0 {
          assert p in c;
        }
      }
      SumsWithin(init, lo, hi);
      assert last in c;
      MulBounds(last.0, last.1, lo, hi);
      Distribute(lo, SumWeights(init), last.1);
      Distribute(hi, SumWeights(init), last.1);
    }
  }

  lemma AverageWithin(total: real, weight: real, lo: real, hi: real)
    requires weight > 0.0 && lo * weight <= total <= hi * weight
    ensures lo <= total / weight <= hi
  {
    MulDivBack(lo, weight);
    MulDivBack(hi, weight);
    DivMonotone(lo * weight, total, weight);
    DivMonotone(total, hi * weight, weight);
  }

  lemma MulDivBack(a: real, w: real)
    requires w > 0.0
    ensures (a * w) / w == a
  {
  }

  lemma DivMonotone(a: real, b: real, w: real)
    requires w > 0.0 && a <= b
    ensures a / w <= b / w
  {
  }

  lemma AverageWithinKeys(keys: seq<string>, obj: map<string, Json>, env: LossEnv, lo: real, hi: real)
    requires KeysIn(keys, obj) && AddsWithin(obj, env, lo, hi) && WeightsNonNegative(env)
    ensures Average(Contributions(keys, |keys|, obj, env)) == Penalty
         || lo <= Average(Contributions(keys, |keys|, obj, env)) <= hi
    ensures Contributions(keys, |keys|, obj, env).Some? && SumWeights(Contributions(keys, |keys|, obj, env).value) > 0.0
        ==> lo <= Average(Contributions(keys, |keys|, obj, env)) <= hi
  {
    var r := Contributions(keys, |keys|, obj, env);
    ContributionsWithin(keys, |keys|, obj, env, lo, hi);
    if r.Some? {
      AverageOfPairsWithin(r.value, lo, hi);
    }
  }

  lemma AverageOfPairsWithin(c: seq<(real, real)>, lo: real, hi: real)
    requires PairsWithin(c, lo, hi)
    ensures Average(Some(c)) == Penalty || lo <= Average(Some(c)) <= hi
    ensures SumWeights(c) > 0.0 ==> lo <= Average(Some(c)) <= hi
  {
    SumsWithin(c, lo, hi);
    if SumWeights(c) != 0.0 {
      AverageWithin(SumWeighted(c), SumWeights(c), lo, hi);
    }
  }

  /** With non-negative weights the loss is the penalty or a weighted mean,
      which lies between the smallest and the largest step loss; when no step
      raises and the included weights sum to more than zero it is the mean,
      and so lies in those bounds. */
  lemma LossWithinStepLosses(obj: map<string, Json>, env: LossEnv, lo: real, hi: real)
    requires AddsWithin(obj, env, lo, hi) && WeightsNonNegative(env)
    ensures LossOfObject(obj, env) == Penalty || lo <= LossOfObject(obj, env) <= hi
    ensures var keys := SortedSet(obj.Keys); var c := Contributions(keys, |keys|, obj, env);
      c.Some? && SumWeights(c.value) > 0.0 ==> lo <= LossOfObject(obj, env) <= hi
  {
    var keys := SortedSet(obj.Keys);
    assert KeysIn(keys, obj);
    AverageWithinKeys(keys, obj, env, lo, hi);
  }

  /** The sum of the losses alone. */
  function SumLosses(c: seq<(real, real)>): real
  {
    if c == [] then 0.0 else SumLosses(c[..|c| - 1]) + c[|c| - 1].0
  }

  predicate UnitWeights(c: seq<(real, real)>)
  {
    forall p :: p in c ==> p.1 == 1.0
  }

  lemma {:induction false} DefaultWeightsAreOne(keys: seq<string>, n: nat, obj: map<string, Json>, env: LossEnv)
    requires n <= |keys| && KeysIn(keys, obj) && env.stepWeights == map[]
    ensures Contributions(keys, n, obj, env).Some? ==> UnitWeights(Contributions(keys, n, obj, env).value)
  {
    if n > 0 {
      DefaultWeightsAreOne(keys, n - 1, obj, env);
    }
  }

  lemma {:induction false} UnitSums(c: seq<(real, real)>)
    requires UnitWeights(c)
    ensures SumWeights(c) == |c| as real
    ensures SumWeighted(c) == SumLosses(c)
  {
    if c != [] {
      var init := c[..|c| - 1];
      assert UnitWeights(init) by {
        forall p | p in init ensures p.1 == 1.0 { assert p in c; }
      }
      UnitSums(init);
      assert c[|c| - 1] in c;
    }
  }

  /** Without `step_weights` every compared step weighs 1.0, so the loss is
      the plain mean of the step losses (or the penalty when none counted). */
  lemma DefaultWeightsMean(obj: map<string, Json>, env: LossEnv)
    requires env.stepWeights == map[]
    ensures var keys := SortedSet(obj.Keys);
      (forall j :: 0 <= j < |keys| ==> keys[j] in obj) &&
      var r := Contributions(keys, |keys|, obj, env);
      r.Some? && |r.value| > 0 ==> LossOfObject(obj, env) == SumLosses(r.value) / (|r.value| as real)
  {
    var keys := SortedSet(obj.Keys);
    assert KeysIn(keys, obj);
    DefaultWeightsAreOne(keys, |keys|, obj, env);
    var r := Contributions(keys, |keys|, obj, env);
    if r.Some? {
      UnitSums(r.value);
    }
  }

  lemma {:induction false} SkipAligned(keys: seq<string>, rest: seq<string>, i: nat, k: string, n: nat,
                                       obj: map<string, Json>, env: LossEnv)
    requires InsertedAt(keys, rest, i, k) && n <= |keys|
    requires KeysIn(keys, obj) && KeysIn(rest, obj - {k})
    requires StepContribution(keys[i], obj[keys[i]], env).Skip?
    ensures n <= i ==> Contributions(keys, n, obj, env) == Contributions(rest, n, obj - {k}, env)
    ensures n > i ==> Contributions(keys, n, obj, env) == Contributions(rest, n - 1, obj - {k}, env)
  {
    if n > 0 {
      SkipAligned(keys, rest, i, k, n - 1, obj, env);
      if n <= i {
        assert rest[n - 1] in obj - {k};
      } else if n > i + 1 {
        assert rest[n - 2] in obj - {k};
      }
    }
  }

  /** A skipped step (no target file, an empty payload or a NaN loss) leaves
      the loss exactly as if the step were not in the dict at all. */
  lemma SkippedStepIgnored(obj: map<string, Json>, env: LossEnv, k: string)
    requires k in obj && StepContribution(k, obj[k], env).Skip?
    ensures LossOfObject(obj - {k}, env) == LossOfObject(obj, env)
  {
    assert (obj - {k}).Keys == obj.Keys - {k};
    var keys, rest := SortedSet(obj.Keys), SortedSet(obj.Keys - {k});
    var i := SortedSetRemove(obj.Keys, k);
    SortedKeysIn(obj);
    SortedKeysIn(obj - {k});
    SkipAligned(keys, rest, i, k, |rest| + 1, obj, env);
  }
}
