/** The two ends of one call: what the simulation server sends back and how
    the mining client's worker reads it. */
module ClientServerExchange {
  import opened Json
  import opened Dicts
  import opened PfcServer
  import opened MiningClient

  /** With a codec that round-trips and writes objects between braces, a run
      the engine completes reaches the client as simulation data (the step
      map exactly as the server built it) and a failed run as a server error,
      which the client reads as no data and a penalty of 1e10. */
  lemma ServerRepliesClassified(clientParams: Dict<Json>, failure: Option<string>, env: ServerEnv)
    requires RoundTrips(env.codec) && EncodesObjectsBraced(env.codec)
    ensures var c := CycleOf(clientParams, failure, env);
      var steps := StepPrefix(DefaultConfig, CsvDir(c.runHash), env, 16);
      && (failure.None? ==> Classify(Some(c.response), env.codec) == Payload(c.response, StepsObject(steps)))
      && (failure.Some? ==> Classify(Some(c.response), env.codec) == ServerError)
  {
    var c := CycleOf(clientParams, failure, env);
    assert "" + c.response + "" == c.response;
    if failure.None? {
      CycleAnswersSixteenSteps(clientParams, env);
      var steps := StepPrefix(DefaultConfig, CsvDir(c.runHash), env, 16);
      StepKeysNotError(DefaultConfig, CsvDir(c.runHash), env, 16);
      var f := (s: string) => JStr(s);
      MapValuesGet(steps, f, "error");
      DataReplyRecognised(ToMap(MapValues(steps, f)), "", "", env.codec);
    } else {
      ErrorReplyRecognised(map["error" := JStr(ExceptionPrefix + failure.value)], "", "", env.codec);
    }
  }
}
