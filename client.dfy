/** The per-job worker of the optimisation client
    (`run_simulation_worker` in `mining_optimization_client.py`): build the
    parameter dict, format large numbers as scientific-notation strings, try
    the knowledge base, otherwise exchange one message with a simulation
    server, and score the result with the multi-step loss.

    The socket exchange is an input: `reply` is what the server sent, already
    decoded from UTF-8, or a failure of the connection or of the decoding. */
module MiningClient {
  import opened Json
  import opened Text
  import opened Dicts
  import opened LossFunction
  import opened KnowledgeBaseManager

  // ---------------------------------------------------------------------------
  // Configuration
  // ---------------------------------------------------------------------------

  const NumServers: nat := 2
  const NCalls: nat := 50
  const NInitialPoints: nat := 5
  const TargetDataRootDir: string := "target_data"

  const SimTransform: Transform := map["x_shift" := 125.0, "y_shift" := 80.0]
  const TargetTransform: Transform := map["x_scale" := 100.0, "y_scale" := 100.0]

  /** The names of the five optimised parameters. */
  const ParameterNames: seq<string> := ["key_emod000", "key_kratio", "key_ten_", "key_coh_", "key_fric"]

  /** The foreign pieces the worker relies on besides the knowledge base. */
  datatype ClientEnv = ClientEnv(
    kb: KbEnv,
    sci: real -> string,                 // f"{value:.6e}"
    fileExists: string -> bool,
    readTarget: string -> Option<Field>,
    readSim: string -> Option<Field>,
    align: (Field, Field) -> StepLoss)

  /** The loss settings the worker passes: `STEP_WEIGHTS = None`. */
  function WorkerLossEnv(targetCaseDir: string, env: ClientEnv): (l: LossEnv)
    ensures l.targetTransform == TargetTransform && l.simTransform == SimTransform
    ensures l.stepWeights == map[] && l.codec == env.kb.codec
  {
    LossEnv(targetCaseDir, TargetTransform, SimTransform, map[], env.fileExists,
            env.readTarget, env.readSim, env.align, env.kb.codec)
  }

  // ---------------------------------------------------------------------------
  // Parameter dict for the knowledge base and the server
  // ---------------------------------------------------------------------------

  function Zip(names: seq<string>, values: seq<Json>): (r: seq<(string, Json)>)
    ensures |r| == if |names| <= |values| then |names| else |values|
    ensures forall i :: 0 <= i < |r| ==> r[i] == (names[i], values[i])
  {
    var n := if |names| <= |values| then |names| else |values|;
    seq(n, i requires 0 <= i < n => (names[i], values[i]))
  }

  /** `{p.name: v for p, v in zip(PARAMETER_SPACE, params_list)}`. */
  function BuildParams(names: seq<string>, values: seq<Json>): (d: Dict<Json>)
    ensures DistinctKeys(d)
  {
    FromPairs(Zip(names, values))
  }

  /** `zip` stops at the shorter list. When the names it pairs are distinct
      (as the parameter space's are), the dict holds exactly those names, in
      order, each mapped to the value at its position. */
  lemma BuildParamsZips(names: seq<string>, values: seq<Json>)
    ensures var n := if |names| <= |values| then |names| else |values|;
      (forall a, b :: 0 <= a < b < n ==> names[a] != names[b]) ==>
        && Keys(BuildParams(names, values)) == names[..n]
        && forall i :: 0 <= i < n ==> Get(BuildParams(names, values), names[i]) == Some(values[i])
  {
    var n := if |names| <= |values| then |names| else |values|;
    var z := Zip(names, values);
    if forall a, b :: 0 <= a < b < n ==> names[a] != names[b] {
      FromDistinctPairs(z);
      assert Keys(z) == names[..n];
    }
  }

  /** `isinstance(value, (int, float)) and abs(value) >= 1e6`. A `bool` is an
      `int` in Python, but its magnitude is at most 1. */
  predicate IsLarge(v: Json)
  {
    match v
    case JInt(i) => i >= 1000000 || i <= -1000000
    case JFloat(f) => f >= 1e6 || f <= -1e6
    case _ => false
  }

  function NumberValue(v: Json): real
    requires v.JInt? || v.JFloat?
  {
    if v.JInt? then v.i as real else v.f
  }

  /** A large number becomes its `.6e` rendering; anything else is kept. */
  function FormatValue(v: Json, sci: real -> string): (r: Json)
    ensures r == v <==> !IsLarge(v)
    ensures IsLarge(v) ==> r == JStr(sci(NumberValue(v)))
  {
    if IsLarge(v) then JStr(sci(NumberValue(v))) else v
  }

  /** `params_dict_for_kb` as a function of `params_dict`. */
  function ForKb(d: Dict<Json>, sci: real -> string): Dict<Json>
  {
    MapValues(d, v => FormatValue(v, sci))
  }

  /** Formatting keeps every key in place, rewrites exactly the large
      numbers, and formatting again changes nothing. */
  lemma ForKbProperties(d: Dict<Json>, sci: real -> string)
    ensures Keys(ForKb(d, sci)) == Keys(d)
    ensures DistinctKeys(d) ==> DistinctKeys(ForKb(d, sci))
    ensures forall i :: 0 <= i < |d| ==>
      (ForKb(d, sci)[i].1 == d[i].1 <==> !IsLarge(d[i].1))
      && !IsLarge(ForKb(d, sci)[i].1)
    ensures ForKb(ForKb(d, sci), sci) == ForKb(d, sci)
  {
    var r := ForKb(d, sci);
    assert forall i :: 0 <= i < |d| ==> r[i].0 == d[i].0;
    assert Keys(r) == Keys(d);
    forall i | 0 <= i < |r| ensures FormatValue(r[i].1, sci) == r[i].1 {
      assert !IsLarge(r[i].1);
    }
  }

  /** Step B: the loop that overwrites each large value in the copy. Assigning
      an existing key keeps its position, so the value is replaced where it is. */
  method FormatLargeValues(params: Dict<Json>, sci: real -> string) returns (forKb: Dict<Json>)
    ensures forKb == ForKb(params, sci)
  {
    forKb := params;
    var i := 0;
    while i < |forKb|
      invariant 0 <= i <= |forKb| == |params|
      invariant forall j :: 0 <= j < i ==> forKb[j] == (params[j].0, FormatValue(params[j].1, sci))
      invariant forall j :: i <= j < |forKb| ==> forKb[j] == params[j]
    {
      var (key, value) := forKb[i];
      if IsLarge(value) {
        forKb := forKb[i := (key, JStr(sci(NumberValue(value))))];
      }
      i := i + 1;
    }
  }

  // ---------------------------------------------------------------------------
  // The server's reply
  // ---------------------------------------------------------------------------

  /** The text from the first `{` to the last `}`, or None when either is
      missing (the source then raises `JSONDecodeError` itself). When the
      last `}` comes before the first `{` the slice is empty. */
  function ExtractPayload(raw: string): (r: Option<string>)
    ensures r.None? <==> '{' !in raw || '}' !in raw
    ensures r.Some? ==> |r.value| <= |raw|
  {
    var start := Find(raw, '{');
    var end := RFind(raw, '}');
    if start != -1 && end != -1 then Some(Slice(raw, start, end + 1)) else None
  }

  /** Noise before the first `{` and after the last `}` is dropped: a braced
      message wrapped in such noise is recovered exactly. */
  lemma ExtractIgnoresNoise(prefix: string, body: string, suffix: string)
    requires Braced(body) && '{' !in prefix && '}' !in suffix
    ensures ExtractPayload(prefix + body + suffix) == Some(body)
  {
    var raw := prefix + body + suffix;
    var start, end := Find(raw, '{'), RFind(raw, '}');
    assert raw[|prefix|] == '{';
    assert raw[|prefix| + |body| - 1] == '}';
    assert raw[..|prefix|] == prefix;
    assert raw[|prefix| + |body|..] == suffix;
    assert start == |prefix|;
    assert end == |prefix| + |body| - 1;
    assert raw[start..end + 1] == body;
  }

  /** `sub` occurs in `s` at position `i`. */
  predicate OccursAt(s: string, sub: string, i: nat)
  {
    i + |sub| <= |s| && s[i..i + |sub|] == sub
  }

  /** `s` contains `sub` (`sub in s` on strings). */
  predicate ContainsText(s: string, sub: string)
  {
    exists i: nat :: i <= |s| && OccursAt(s, sub, i)
  }

  /** `"error" in response_data`: a key of a dict, an element of a list, a
      substring of a string; any other value raises `TypeError` (None). */
  function HasErrorKey(v: Json): Option<bool>
  {
    match v
    case JObj(fields) => Some("error" in fields)
    case JArr(items) => Some(JStr("error") in items)
    case JStr(s) => Some(ContainsText(s, "error"))
    case _ => None
  }

  /** What became of the exchange: no usable reply, a reply reporting an
      error, or simulation data (the extracted text and its decoded value). */
  datatype Exchange = Failed | ServerError | Payload(text: string, data: Json)

  function Classify(reply: Option<string>, codec: Codec): (e: Exchange)
    ensures e.Payload? ==>
      && reply.Some?
      && ExtractPayload(reply.value) == Some(e.text)
      && codec.parse(e.text) == Some(e.data)
      && HasErrorKey(e.data) == Some(false)
    ensures e.ServerError? <==>
      && reply.Some?
      && ExtractPayload(reply.value).Some?
      && codec.parse(ExtractPayload(reply.value).value).Some?
      && HasErrorKey(codec.parse(ExtractPayload(reply.value).value).value) == Some(true)
  {
    if reply.None? then Failed
    else match ExtractPayload(reply.value)
      case None => Failed
      case Some(text) =>
        match codec.parse(text)
        case None => Failed
        case Some(data) =>
          match HasErrorKey(data)
          case None => Failed
          case Some(true) => ServerError
          case Some(false) => Payload(text, data)
  }

  /** A reply whose braced part decodes to a dict, a list or a string is
      decided by whether that value holds `error`. */
  lemma ClassifyDecoded(raw: string, text: string, v: Json, codec: Codec)
    requires ExtractPayload(raw) == Some(text) && codec.parse(text) == Some(v)
    requires v.JObj? || v.JArr? || v.JStr?
    ensures HasErrorKey(v).Some?
    ensures Classify(Some(raw), codec) == if HasErrorKey(v).value then ServerError else Payload(text, v)
  {
  }

  /** A reply carrying an encoded object with an `error` key, whatever noise
      surrounds it, is recognised as a server error, given a codec that
      round-trips and writes objects between braces. */
  lemma ErrorReplyRecognised(m: map<string, Json>, prefix: string, suffix: string, codec: Codec)
    requires RoundTrips(codec) && EncodesObjectsBraced(codec)
    requires "error" in m && '{' !in prefix && '}' !in suffix
    ensures Classify(Some(prefix + codec.dumps(JObj(m)) + suffix), codec) == ServerError
  {
    var text := codec.dumps(JObj(m));
    assert Braced(text);
    ExtractIgnoresNoise(prefix, text, suffix);
    assert codec.parse(text) == Some(JObj(m));
    ClassifyDecoded(prefix + text + suffix, text, JObj(m), codec);
  }

  /** Likewise a reply carrying an object without an `error` key is taken as
      simulation data, and exactly that object is what is decoded. */
  lemma DataReplyRecognised(m: map<string, Json>, prefix: string, suffix: string, codec: Codec)
    requires RoundTrips(codec) && EncodesObjectsBraced(codec)
    requires "error" !in m && '{' !in prefix && '}' !in suffix
    ensures Classify(Some(prefix + codec.dumps(JObj(m)) + suffix), codec)
         == Payload(codec.dumps(JObj(m)), JObj(m))
  {
    var text := codec.dumps(JObj(m));
    assert Braced(text);
    ExtractIgnoresNoise(prefix, text, suffix);
    assert codec.parse(text) == Some(JObj(m));
    ClassifyDecoded(prefix + text + suffix, text, JObj(m), codec);
  }

  // ---------------------------------------------------------------------------
  // run_simulation_worker
  // ---------------------------------------------------------------------------

  /** `(params_list, loss, sim_steps_json_string, job_id)`, or an exception
      out of the knowledge-base lookup, which the worker does not catch. */
  datatype WorkerResult =
    | Finished(params: seq<Json>, loss: real, simSteps: Option<string>, jobId: nat)
    | Raised

  /** The result of a job and the knowledge base after it. `save` is how
      writing the record would go; a failed write raises inside the outer
      `try`, whose handler drops the data, so the job is scored 1e10. */
  function Worker(files: map<string, KbFile>, names: seq<string>, values: seq<Json>,
                  targetCaseDir: string, jobId: nat, reply: Option<string>, save: WriteOutcome, env: ClientEnv)
    : (WorkerResult, map<string, KbFile>)
  {
    var forKb := ForKb(BuildParams(names, values), env.sci);
    var lossEnv := WorkerLossEnv(targetCaseDir, env);
    match LoadFrom(files, forKb, env.kb)
    case LoadRaises => (Raised, files)
    case Hit(text) => (Finished(values, MultiStepLoss(text, lossEnv), Some(text), jobId), files)
    case Miss =>
      match Classify(reply, env.kb.codec)
      case Payload(text, data) =>
        var after := WrittenFiles(files, forKb, data, save, env.kb);
        if save.Written? then (Finished(values, MultiStepLoss(text, lossEnv), Some(text), jobId), after)
        else (Finished(values, Penalty, None, jobId), after)
      case _ => (Finished(values, Penalty, None, jobId), files)
  }

  /** A job raises exactly when the knowledge-base lookup, which no `try`
      covers, raises; otherwise it hands back the parameters and the job id
      it was given; without simulation data its loss is the 1e10 penalty,
      otherwise the multi-step loss of that data. */
  lemma WorkerReturns(files: map<string, KbFile>, names: seq<string>, values: seq<Json>,
                      targetCaseDir: string, jobId: nat, reply: Option<string>, save: WriteOutcome, env: ClientEnv)
    ensures Worker(files, names, values, targetCaseDir, jobId, reply, save, env).0.Raised?
        <==> LoadFrom(files, ForKb(BuildParams(names, values), env.sci), env.kb).LoadRaises?
    ensures var (r, _) := Worker(files, names, values, targetCaseDir, jobId, reply, save, env);
      r.Finished? ==>
        && r.params == values && r.jobId == jobId
        && (r.simSteps.None? ==> r.loss == Penalty)
        && (r.simSteps.Some? ==> r.loss == MultiStepLoss(r.simSteps.value, WorkerLossEnv(targetCaseDir, env)))
  {
  }

  /** A cache hit never contacts the server and writes nothing: neither the
      reply nor how a write would go plays a part, and the knowledge base is
      left alone. */
  lemma CacheHitIgnoresServer(files: map<string, KbFile>, names: seq<string>, values: seq<Json>,
                              targetCaseDir: string, jobId: nat, reply1: Option<string>, reply2: Option<string>,
                              save1: WriteOutcome, save2: WriteOutcome, env: ClientEnv)
    requires LoadFrom(files, ForKb(BuildParams(names, values), env.sci), env.kb).Hit?
    ensures Worker(files, names, values, targetCaseDir, jobId, reply1, save1, env)
         == Worker(files, names, values, targetCaseDir, jobId, reply2, save2, env)
    ensures Worker(files, names, values, targetCaseDir, jobId, reply1, save1, env).1 == files
  {
  }

  /** A failed exchange or a server error leaves the knowledge base as it was
      and scores the job with the penalty; only simulation data that is
      written is cached and scored. */
  lemma OnlyDataIsCached(files: map<string, KbFile>, names: seq<string>, values: seq<Json>,
                         targetCaseDir: string, jobId: nat, reply: Option<string>, save: WriteOutcome, env: ClientEnv)
    requires LoadFrom(files, ForKb(BuildParams(names, values), env.sci), env.kb).Miss?
    ensures var (r, after) := Worker(files, names, values, targetCaseDir, jobId, reply, save, env);
      !Classify(reply, env.kb.codec).Payload? ==> after == files && r == Finished(values, Penalty, None, jobId)
    ensures var (r, after) := Worker(files, names, values, targetCaseDir, jobId, reply, save, env);
      Classify(reply, env.kb.codec).Payload? && save.Written? ==>
        && after == SavedFiles(files, ForKb(BuildParams(names, values), env.sci), Classify(reply, env.kb.codec).data, env.kb)
        && r.simSteps == Some(Classify(reply, env.kb.codec).text)
  {
  }

  /** Simulation data whose write fails is dropped: the job is scored with the
      penalty. A failed `open` leaves the knowledge base as it was; a failed
      `json.dump` leaves a partial file, so the next lookup of the same
      parameters raises. */
  lemma FailedSaveIsPenalty(files: map<string, KbFile>, names: seq<string>, values: seq<Json>,
                            targetCaseDir: string, jobId: nat, reply: Option<string>, save: WriteOutcome, env: ClientEnv)
    requires LoadFrom(files, ForKb(BuildParams(names, values), env.sci), env.kb).Miss?
    requires Classify(reply, env.kb.codec).Payload? && !save.Written?
    ensures var (r, after) := Worker(files, names, values, targetCaseDir, jobId, reply, save, env);
      && r == Finished(values, Penalty, None, jobId)
      && (save.OpenFailed? ==> after == files)
      && (save.DumpFailed? ==> LoadFrom(after, ForKb(BuildParams(names, values), env.sci), env.kb) == LoadRaises)
  {
  }

  /** After a job whose reply was simulation data and was written, running
      the same parameters again is a cache hit scored exactly as the first
      run, given a codec that round-trips. */
  lemma RepeatJobHitsCache(files: map<string, KbFile>, names: seq<string>, values: seq<Json>,
                           targetCaseDir: string, jobId: nat, laterJob: nat, reply: Option<string>,
                           laterReply: Option<string>, laterSave: WriteOutcome, env: ClientEnv)
    requires RoundTrips(env.kb.codec)
    requires LoadFrom(files, ForKb(BuildParams(names, values), env.sci), env.kb).Miss?
    requires Classify(reply, env.kb.codec).Payload?
    ensures var (first, after) := Worker(files, names, values, targetCaseDir, jobId, reply, Written, env);
      var (second, again) := Worker(after, names, values, targetCaseDir, laterJob, laterReply, laterSave, env);
      second.Finished? && first.Finished? && second.loss == first.loss && again == after
  {
    var forKb := ForKb(BuildParams(names, values), env.sci);
    var e := Classify(reply, env.kb.codec);
    CachedLossIsFreshLoss(files, forKb, e.text, env.kb, WorkerLossEnv(targetCaseDir, env));
  }

  method RunSimulationWorker(kb: KnowledgeBase, names: seq<string>, paramsList: seq<Json>,
                             targetCaseDir: string, jobId: nat, reply: Option<string>, save: WriteOutcome,
                             env: ClientEnv)
    returns (result: WorkerResult)
    modifies kb
    ensures (result, kb.files) == Worker(old(kb.files), names, paramsList, targetCaseDir, jobId, reply, save, env)
  {
    var paramsDict := BuildParams(names, paramsList);
    var paramsForKb := FormatLargeValues(paramsDict, env.sci);
    var lossEnv := WorkerLossEnv(targetCaseDir, env);

    var cached := kb.Load(paramsForKb, env.kb);
    if cached.LoadRaises? {
      return Raised;
    }
    var simSteps: Option<string> := None;
    if cached.Hit? {
      simSteps := Some(cached.text);
    } else {
      var exchange := Classify(reply, env.kb.codec);
      if exchange.Payload? {
        var saved := kb.Save(paramsForKb, exchange.text, save, env.kb);
        if saved {
          simSteps := Some(exchange.text);
        }
      }
    }

    if simSteps.None? {
      result := Finished(paramsList, Penalty, None, jobId);
    } else {
      var loss := CalculateMultiStepLoss(simSteps.value, lossEnv);
      result := Finished(paramsList, loss, simSteps, jobId);
    }
  }
}
