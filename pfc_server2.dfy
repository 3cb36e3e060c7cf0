/** Revision 7 of the simulation server (`PFC_model/pfc_server2.py`). Its
    geometry, step schedule, run id and packaging are the first revision's
    (module `PfcServer`); what changes is the merge, which converts every
    client value to a float where Python's `float()` accepts it. */
module PfcServer2 {
  import opened Json
  import opened Dicts
  import opened PfcServer

  /** `float(value)`, or the value as given when that raises `ValueError` or
      `TypeError`. */
  function Coerce(v: Json, parseFloat: string -> Option<real>): (r: Json)
    ensures ToFloat(v, parseFloat).Some? ==> r == JFloat(ToFloat(v, parseFloat).value)
    ensures ToFloat(v, parseFloat).None? ==> r == v
    ensures v.JFloat? ==> r == v
    ensures r.JFloat? || r == v
  {
    match ToFloat(v, parseFloat)
    case Some(f) => JFloat(f)
    case None => v
  }

  /** Converting twice is converting once. */
  lemma CoerceIdempotent(v: Json, parseFloat: string -> Option<real>)
    ensures Coerce(Coerce(v, parseFloat), parseFloat) == Coerce(v, parseFloat)
  {
  }

  /** The merge loop with the conversion in it. */
  method MergeCoerced(defaults: seq<(string, Json)>, clientParams: Dict<Json>, parseFloat: string -> Option<real>)
    returns (currentParams: Dict<Json>)
    ensures currentParams == Assign(FromPairs(defaults), MapValues(clientParams, v => Coerce(v, parseFloat)))
  {
    ghost var coerced := MapValues(clientParams, v => Coerce(v, parseFloat));
    currentParams := FromPairs(defaults);
    var i := 0;
    while i < |clientParams|
      invariant 0 <= i <= |clientParams|
      invariant currentParams == Assign(FromPairs(defaults), coerced[..i])
    {
      var (key, value) := clientParams[i];
      assert coerced[..i + 1][..i] == coerced[..i];
      assert coerced[i] == (key, Coerce(value, parseFloat));
      var asFloat := ToFloat(value, parseFloat);
      if asFloat.Some? {
        currentParams := Set(currentParams, key, JFloat(asFloat.value));
      } else {
        currentParams := Set(currentParams, key, value);
      }
      i := i + 1;
    }
    assert coerced[..i] == coerced;
  }

  /** The converting merge lists the same names in the same order as the
      plain one; a client value arrives converted where it converts and as
      given where it does not, and the defaults are untouched. */
  lemma MergeCoercedContract(defaults: seq<(string, Json)>, clientParams: Dict<Json>,
                             parseFloat: string -> Option<real>, k: string)
    requires DistinctKeys(clientParams)
    ensures var plain := Assign(FromPairs(defaults), clientParams);
      var merged := Assign(FromPairs(defaults), MapValues(clientParams, v => Coerce(v, parseFloat)));
      && Keys(merged) == Keys(plain)
      && DistinctKeys(merged)
      && (k in KeySet(clientParams) ==> Get(merged, k) == Some(Coerce(Get(clientParams, k).value, parseFloat)))
      && (k !in KeySet(clientParams) ==> Get(merged, k) == Get(plain, k) == LastGet(defaults, k))
  {
    var f := v => Coerce(v, parseFloat);
    var coerced := MapValues(clientParams, f);
    assert Keys(coerced) == Keys(clientParams);
    MapValuesGet(clientParams, f, k);
    assert DistinctKeys(coerced) by {
      forall i, j | 0 <= i < j < |coerced| ensures coerced[i].0 != coerced[j].0 {
        assert coerced[i].0 == clientParams[i].0 && coerced[j].0 == clientParams[j].0;
      }
    }
    LastGetIsGet(coerced, k);
    LastGetIsGet(clientParams, k);
  }

  /** What one revision-7 cycle produces. The run id hashes the client's
      values as sent, before conversion. */
  function CycleOf2(clientParams: Dict<Json>, failure: Option<string>, env: ServerEnv,
                    parseFloat: string -> Option<real>): Cycle
  {
    var runHash := RunHash(clientParams, env);
    var merged := Assign(FromPairs(DefaultConfig.equilibriumParams), MapValues(clientParams, v => Coerce(v, parseFloat)));
    var config := RunConfig(merged);
    var steps := StepData(config, CsvDir(runHash), env);
    Cycle(runHash, config, env.codec.dumps(Package(steps, failure)))
  }

  method RunSingleOptimizationCycle2(clientParams: Dict<Json>, failure: Option<string>, env: ServerEnv,
                                     parseFloat: string -> Option<real>)
    returns (cycle: Cycle)
    ensures cycle == CycleOf2(clientParams, failure, env, parseFloat)
  {
    var runHash := RunHash(clientParams, env);
    var currentParams := MergeCoerced(DefaultConfig.equilibriumParams, clientParams, parseFloat);
    var runConfig := DefaultConfig.(equilibriumParams := currentParams);
    var response: string;
    if failure.Some? {
      response := env.codec.dumps(ErrorObject(ExceptionPrefix + failure.value));
    } else {
      var allStepsData := RunExcavation(runConfig, CsvDir(runHash), env);
      if allStepsData.None? {
        response := env.codec.dumps(ErrorObject(ExceptionPrefix + ZeroDivisionMessage));
      } else if allStepsData.value != [] {
        response := env.codec.dumps(StepsObject(allStepsData.value));
      } else {
        response := env.codec.dumps(ErrorObject(NoDataMessage));
      }
    }
    cycle := Cycle(runHash, runConfig, response);
  }

  /** The two revisions run the same schedule under the same run id, and,
      given the same engine failure and the same CSV files, send the same
      reply. The parameter values handed to the engine may differ (a `.6e`
      string in one revision, a float in the other; by `MergeCoercedContract`
      never the names), so the engine may well write different CSVs; the
      model does not relate the engine's output to its inputs. */
  lemma RevisionsAgreeOnReply(clientParams: Dict<Json>, failure: Option<string>, env: ServerEnv,
                              parseFloat: string -> Option<real>)
    ensures var c1, c2 := CycleOf(clientParams, failure, env), CycleOf2(clientParams, failure, env, parseFloat);
      && c1.runHash == c2.runHash
      && c1.response == c2.response
  {
    var c1, c2 := CycleOf(clientParams, failure, env), CycleOf2(clientParams, failure, env, parseFloat);
    StepDataReadsGeometry(c1.runConfig, c2.runConfig, CsvDir(c1.runHash), env);
  }
}
