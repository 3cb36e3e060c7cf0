/** The on-disk knowledge base of finished simulations
    (`knowledge_base_manager_mining.py`): one JSON file per parameter set,
    named after the SHA-256 of the parameters serialised with sorted keys.
    The directory is the `files` field of a `KnowledgeBase` object, keyed by
    file name; `json.dump` followed by `json.load` is taken to give the same
    value back, so a file holds a decoded JSON value, or cannot be decoded. */
module KnowledgeBaseManager {
  import opened Json
  import opened Text
  import opened Dicts
  import opened LossFunction

  const KnowledgeBaseDir: string := "knowledge_base_mining"

  /** Losses at or above this bound are not used to warm-start the optimizer. */
  const PriorLossBound: real := 1e9

  datatype KbFile = Stored(data: Json) | Corrupt

  /** What `load_from_knowledge_base` does: the text of the stored step data,
      None, or an exception (an undecodable file, or one that is not an object). */
  datatype LoadResult = Hit(text: string) | Miss | LoadRaises

  /** `json.dumps(..., sort_keys=True)` and the hex digest of SHA-256. */
  datatype KbEnv = KbEnv(codec: Codec, dumpsSorted: Json -> string, sha256: string -> string)

  /** `get_params_hash`: the digest of the parameter dict serialised with
      sorted keys. */
  function ParamsHash(params: Dict<Json>, env: KbEnv): string
  {
    env.sha256(env.dumpsSorted(JObj(ToMap(params))))
  }

  function FileName(params: Dict<Json>, env: KbEnv): string
  {
    ParamsHash(params, env) + ".json"
  }

  /** The hash, and so the file, of a parameter dict does not depend on the
      order in which its keys were inserted. */
  lemma FileNameIgnoresOrder(d: Dict<Json>, e: Dict<Json>, env: KbEnv)
    requires DistinctKeys(d) && DistinctKeys(e)
    requires forall p :: p in d <==> p in e
    ensures ParamsHash(d, env) == ParamsHash(e, env)
    ensures FileName(d, env) == FileName(e, env)
  {
    ToMapIgnoresOrder(d, e);
  }

  /** `{'parameters': params_dict, 'simulation_data': json.loads(...)}`. */
  function Record(params: Dict<Json>, simData: Json): Json
  {
    JObj(map["parameters" := JObj(ToMap(params)), "simulation_data" := simData])
  }

  /** `data.get('simulation_data')` of a decoded object. */
  function SimulationData(fields: map<string, Json>): Json
  {
    if "simulation_data" in fields then fields["simulation_data"] else JNull
  }

  function LoadFrom(files: map<string, KbFile>, params: Dict<Json>, env: KbEnv): LoadResult
  {
    var name := FileName(params, env);
    if name !in files then Miss
    else match files[name]
      case Stored(JObj(fields)) => Hit(env.codec.dumps(SimulationData(fields)))
      case _ => LoadRaises
  }

  /** The directory after a successful save: the file of `params` is
      (over)written, nothing else changes. */
  function SavedFiles(files: map<string, KbFile>, params: Dict<Json>, simData: Json, env: KbEnv): map<string, KbFile>
  {
    files[FileName(params, env) := Stored(Record(params, simData))]
  }

  /** How writing the record goes. `open(filepath, 'w')` can raise before
      anything is written, or `json.dump` can raise after the file was
      truncated, leaving a partial text that no longer decodes. */
  datatype WriteOutcome = Written | OpenFailed | DumpFailed

  /** The directory after writing the record of `params` with `outcome`. */
  function WrittenFiles(files: map<string, KbFile>, params: Dict<Json>, simData: Json, outcome: WriteOutcome, env: KbEnv)
    : (r: map<string, KbFile>)
    ensures outcome.Written? ==> r == SavedFiles(files, params, simData, env)
    ensures outcome.OpenFailed? ==> r == files
    ensures outcome.DumpFailed? ==> LoadFrom(r, params, env) == LoadRaises
    ensures forall n :: n != FileName(params, env) ==> (n in r <==> n in files) && (n in r ==> r[n] == files[n])
  {
    match outcome
    case Written => SavedFiles(files, params, simData, env)
    case OpenFailed => files
    case DumpFailed => files[FileName(params, env) := Corrupt]
  }

  /** Loading what was just saved gives back the encoding of the saved step data. */
  lemma LoadAfterSave(files: map<string, KbFile>, params: Dict<Json>, simData: Json, env: KbEnv)
    ensures LoadFrom(SavedFiles(files, params, simData, env), params, env) == Hit(env.codec.dumps(simData))
  {
  }

  /** Saving leaves every other parameter set's entry as it was. */
  lemma SaveKeepsOthers(files: map<string, KbFile>, params: Dict<Json>, other: Dict<Json>, simData: Json, env: KbEnv)
    requires FileName(other, env) != FileName(params, env)
    ensures LoadFrom(SavedFiles(files, params, simData, env), other, env) == LoadFrom(files, other, env)
  {
  }

  /** The last save of a parameter set wins. */
  lemma LastSaveWins(files: map<string, KbFile>, params: Dict<Json>, first: Json, second: Json, env: KbEnv)
    ensures SavedFiles(SavedFiles(files, params, first, env), params, second, env)
         == SavedFiles(files, params, second, env)
  {
  }

  /** With a codec that round-trips, a cache hit is evaluated exactly like
      the response the simulation was saved from: the loss is the same. */
  lemma CachedLossIsFreshLoss(files: map<string, KbFile>, params: Dict<Json>, simText: string,
                              env: KbEnv, lossEnv: LossEnv)
    requires RoundTrips(env.codec) && lossEnv.codec == env.codec
    requires env.codec.parse(simText).Some?
    ensures var saved := SavedFiles(files, params, env.codec.parse(simText).value, env);
      LoadFrom(saved, params, env).Hit?
      && MultiStepLoss(LoadFrom(saved, params, env).text, lossEnv) == MultiStepLoss(simText, lossEnv)
  {
    var v := env.codec.parse(simText).value;
    LoadAfterSave(files, params, v, env);
    assert env.codec.parse(env.codec.dumps(v)) == Some(v);
  }

  // ---------------------------------------------------------------------------
  // warm_start_optimizer
  // ---------------------------------------------------------------------------

  /** `[f for f in os.listdir(...) if f.endswith(".json")]`. */
  function JsonFiles(listing: seq<string>): (r: seq<string>)
    ensures forall n :: n in r <==> n in listing && EndsWith(n, ".json")
    ensures |r| <= |listing|
  {
    if listing == [] then []
    else
      var rest := JsonFiles(listing[..|listing| - 1]);
      var last := listing[|listing| - 1];
      assert listing == listing[..|listing| - 1] + [last];
      if EndsWith(last, ".json") then rest + [last] else rest
  }

  /** `[float(params_dict.get(name)) for name in param_names]`: None when a
      name is looked up in stored parameters that are not a dict (no `.get`),
      a name is missing (`float(None)`) or a value does not convert. With no
      names nothing is looked up, so the list is empty whatever is stored. */
  function ParamsList(stored: Json, paramNames: seq<string>, parseFloat: string -> Option<real>): (r: Option<seq<real>>)
    ensures r.Some? ==> |r.value| == |paramNames|
    ensures paramNames == [] ==> r == Some([])
    ensures r.Some? <==> (paramNames == [] || stored.JObj?) && forall i :: 0 <= i < |paramNames| ==>
      stored.JObj? && paramNames[i] in stored.fields && ToFloat(stored.fields[paramNames[i]], parseFloat).Some?
    ensures r.Some? ==> forall i :: 0 <= i < |paramNames| ==>
      stored.JObj? && Some(r.value[i]) == ToFloat(stored.fields[paramNames[i]], parseFloat)
  {
    if (paramNames == [] || stored.JObj?) && forall i :: 0 <= i < |paramNames| ==>
      stored.JObj? && paramNames[i] in stored.fields && ToFloat(stored.fields[paramNames[i]], parseFloat).Some?
    then Some(seq(|paramNames|, i requires 0 <= i < |paramNames| => ToFloat(stored.fields[paramNames[i]], parseFloat).value))
    else None
  }

  /** The prior point a knowledge-base file contributes, if any: every failure
      (unreadable or vanished file, no `parameters`, a value that does not
      convert) is skipped, and so is a loss of 1e9 or more. The guard
      `sim_steps_json_string and all(p is not None ...)` always holds, since
      `json.dumps` never returns an empty string and `float` never None. */
  function PriorOf(files: map<string, KbFile>, name: string, paramNames: seq<string>,
                   lossEnv: LossEnv, parseFloat: string -> Option<real>): Option<(seq<real>, real)>
  {
    if name !in files then None
    else match files[name]
      case Corrupt => None
      case Stored(data) =>
        if !data.JObj? || "parameters" !in data.fields then None
        else match ParamsList(data.fields["parameters"], paramNames, parseFloat)
          case None => None
          case Some(xs) =>
            var loss := MultiStepLoss(lossEnv.codec.dumps(SimulationData(data.fields)), lossEnv);
            if loss < PriorLossBound then Some((xs, loss)) else None
  }

  /** The prior points of the files `names`, in listing order. */
  function Priors(files: map<string, KbFile>, names: seq<string>, paramNames: seq<string>,
                  lossEnv: LossEnv, parseFloat: string -> Option<real>): seq<(seq<real>, real)>
  {
    if names == [] then []
    else
      var rest := Priors(files, names[..|names| - 1], paramNames, lossEnv, parseFloat);
      match PriorOf(files, names[|names| - 1], paramNames, lossEnv, parseFloat)
      case None => rest
      case Some(p) => rest + [p]
  }

  /** Every prior point has one coordinate per parameter and a loss below the
      bound, and there are no more of them than files. */
  lemma {:induction false} PriorsValid(files: map<string, KbFile>, names: seq<string>, paramNames: seq<string>,
                                       lossEnv: LossEnv, parseFloat: string -> Option<real>)
    ensures var ps := Priors(files, names, paramNames, lossEnv, parseFloat);
      |ps| <= |names|
      && forall i :: 0 <= i < |ps| ==> |ps[i].0| == |paramNames| && ps[i].1 < PriorLossBound
  {
    if names != [] {
      PriorsValid(files, names[..|names| - 1], paramNames, lossEnv, parseFloat);
    }
  }

  /** Every prior point comes from a listed file, and carries that file's loss. */
  lemma {:induction false} PriorsFromFiles(files: map<string, KbFile>, names: seq<string>, paramNames: seq<string>,
                                           lossEnv: LossEnv, parseFloat: string -> Option<real>)
    ensures forall p :: p in Priors(files, names, paramNames, lossEnv, parseFloat) ==>
      exists n :: n in names && PriorOf(files, n, paramNames, lossEnv, parseFloat) == Some(p)
  {
    if names != [] {
      var init, last := names[..|names| - 1], names[|names| - 1];
      PriorsFromFiles(files, init, paramNames, lossEnv, parseFloat);
      forall p | p in Priors(files, names, paramNames, lossEnv, parseFloat)
        ensures exists n :: n in names && PriorOf(files, n, paramNames, lossEnv, parseFloat) == Some(p)
      {
        if p in Priors(files, init, paramNames, lossEnv, parseFloat) {
          var n :| n in init && PriorOf(files, n, paramNames, lossEnv, parseFloat) == Some(p);
          assert n in names;
        } else {
          assert last in names;
        }
      }
    }
  }

  /** A file that yields a prior point is never dropped. */
  lemma {:induction false} QualifyingFileKept(files: map<string, KbFile>, names: seq<string>, paramNames: seq<string>,
                                              lossEnv: LossEnv, parseFloat: string -> Option<real>, n: string)
    requires n in names && PriorOf(files, n, paramNames, lossEnv, parseFloat).Some?
    ensures PriorOf(files, n, paramNames, lossEnv, parseFloat).value in Priors(files, names, paramNames, lossEnv, parseFloat)
  {
    var init, last := names[..|names| - 1], names[|names| - 1];
    assert names == init + [last];
    if n != last {
      assert n in init;
      QualifyingFileKept(files, init, paramNames, lossEnv, parseFloat, n);
    }
  }

  lemma PriorsNext(files: map<string, KbFile>, names: seq<string>, i: nat, paramNames: seq<string>,
                   lossEnv: LossEnv, parseFloat: string -> Option<real>)
    requires i < |names|
    ensures PriorOf(files, names[i], paramNames, lossEnv, parseFloat).None? ==>
      Priors(files, names[..i + 1], paramNames, lossEnv, parseFloat) == Priors(files, names[..i], paramNames, lossEnv, parseFloat)
    ensures PriorOf(files, names[i], paramNames, lossEnv, parseFloat).Some? ==>
      Priors(files, names[..i + 1], paramNames, lossEnv, parseFloat)
      == Priors(files, names[..i], paramNames, lossEnv, parseFloat) + [PriorOf(files, names[i], paramNames, lossEnv, parseFloat).value]
  {
    assert names[..i + 1][..i] == names[..i];
  }

  /** The points `(xs[i], ys[i])`, side by side. */
  function Pairs(xs: seq<seq<real>>, ys: seq<real>): (r: seq<(seq<real>, real)>)
    requires |xs| == |ys|
    ensures |r| == |xs| && forall i :: 0 <= i < |r| ==> r[i] == (xs[i], ys[i])
  {
    seq(|xs|, i requires 0 <= i < |xs| => (xs[i], ys[i]))
  }

  lemma PairsAppend(xs: seq<seq<real>>, ys: seq<real>, x: seq<real>, y: real)
    requires |xs| == |ys|
    ensures Pairs(xs + [x], ys + [y]) == Pairs(xs, ys) + [(x, y)]
  {
  }

  class KnowledgeBase {
    var files: map<string, KbFile>

    constructor (initial: map<string, KbFile>)
      ensures files == initial
    {
      files := initial;
    }

    /** `load_from_knowledge_base`. */
    function Load(params: Dict<Json>, env: KbEnv): (r: LoadResult)
      reads this
      ensures r.Miss? <==> FileName(params, env) !in files
    {
      LoadFrom(files, params, env)
    }

    /** `save_to_knowledge_base`: when the step text decodes, the record is
        written to the parameters' file (replacing any earlier one) as
        `outcome` says; when it does not, `json.loads` raises and nothing is
        written. `saved` is false exactly when the call raises. */
    method Save(params: Dict<Json>, simText: string, outcome: WriteOutcome, env: KbEnv) returns (saved: bool)
      modifies this
      ensures saved <==> env.codec.parse(simText).Some? && outcome.Written?
      ensures env.codec.parse(simText).Some? ==>
        files == WrittenFiles(old(files), params, env.codec.parse(simText).value, outcome, env)
      ensures env.codec.parse(simText).None? ==> files == old(files)
    {
      var parsed := env.codec.parse(simText);
      if parsed.None? {
        return false;
      }
      var name := FileName(params, env);
      match outcome
      case Written =>
        files := files[name := Stored(Record(params, parsed.value))];
        return true;
      case OpenFailed =>
        return false;
      case DumpFailed =>
        files := files[name := Corrupt];
        return false;
    }

    /** The body of the loop for one file (the `try` block). */
    method LoadPrior(name: string, paramNames: seq<string>, lossEnv: LossEnv, parseFloat: string -> Option<real>)
      returns (prior: Option<(seq<real>, real)>)
      ensures prior == PriorOf(files, name, paramNames, lossEnv, parseFloat)
    {
      if name !in files || files[name].Corrupt? {
        return None;
      }
      var data := files[name].data;
      if !data.JObj? || "parameters" !in data.fields {
        return None;
      }
      var paramsList := ParamsList(data.fields["parameters"], paramNames, parseFloat);
      if paramsList.None? {
        return None;
      }
      var simStepsJson := lossEnv.codec.dumps(SimulationData(data.fields));
      var loss := CalculateMultiStepLoss(simStepsJson, lossEnv);
      if loss < PriorLossBound {
        return Some((paramsList.value, loss));
      }
      return None;
    }

    /** `warm_start_optimizer`: `listing` is what `os.listdir` returns, in
        its order. */
    method WarmStart(listing: seq<string>, paramNames: seq<string>, lossEnv: LossEnv,
                     parseFloat: string -> Option<real>)
      returns (xs: seq<seq<real>>, ys: seq<real>)
      ensures |xs| == |ys| == |Priors(files, JsonFiles(listing), paramNames, lossEnv, parseFloat)|
      ensures forall i :: 0 <= i < |xs| ==>
        (xs[i], ys[i]) == Priors(files, JsonFiles(listing), paramNames, lossEnv, parseFloat)[i]
    {
      var kbFiles := JsonFiles(listing);
      xs, ys := [], [];
      if |kbFiles| == 0 {
        return;
      }
      var i := 0;
      while i < |kbFiles|
        invariant 0 <= i <= |kbFiles|
        invariant |xs| == |ys|
        invariant Pairs(xs, ys) == Priors(files, kbFiles[..i], paramNames, lossEnv, parseFloat)
      {
        PriorsNext(files, kbFiles, i, paramNames, lossEnv, parseFloat);
        var prior := LoadPrior(kbFiles[i], paramNames, lossEnv, parseFloat);
        if prior.Some? {
          PairsAppend(xs, ys, prior.value.0, prior.value.1);
          xs := xs + [prior.value.0];
          ys := ys + [prior.value.1];
        }
        i := i + 1;
      }
      assert kbFiles[..|kbFiles|] == kbFiles;
    }
  }
}
