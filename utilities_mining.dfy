/** Naming of the per-case results directory (`setup_results_directory`).
    The clock is a parameter: `timestamp` is the `%Y-%m-%d_%H-%M-%S`
    rendering of the current time. */
module UtilitiesMining {
  import opened Text

  const ResultsRoot: string := "optimization_results"

  /** `name.replace('.', '_').replace(' ', '_')`. */
  function SanitizeName(name: string): (r: string)
    ensures |r| == |name|
    ensures '.' !in r && ' ' !in r
    ensures forall i :: 0 <= i < |name| && name[i] != '.' && name[i] != ' ' ==> r[i] == name[i]
    ensures forall i :: 0 <= i < |name| && (name[i] == '.' || name[i] == ' ') ==> r[i] == '_'
  {
    var once := ReplaceChar(name, '.', '_');
    var r := ReplaceChar(once, ' ', '_');
    assert forall i :: 0 <= i < |r| ==> r[i] != '.' && r[i] != ' ';
    r
  }

  /** Sanitising a sanitised name changes nothing. */
  lemma {:induction false} SanitizeIdempotent(name: string)
    ensures SanitizeName(SanitizeName(name)) == SanitizeName(name)
  {
    var once := SanitizeName(name);
    var twice := SanitizeName(once);
    forall i | 0 <= i < |once| ensures twice[i] == once[i] {
      assert once[i] in once;
    }
  }

  /** `f"run_{sanitized}_{timestamp}"`. */
  function RunName(caseName: string, timestamp: string): string
  {
    "run_" + SanitizeName(caseName) + "_" + timestamp
  }

  /** The results directory and its `plots` sub-directory. */
  function SetupResultsDirectory(caseName: string, timestamp: string): (dirs: (string, string))
    ensures dirs.0 == "optimization_results/run_" + SanitizeName(caseName) + "_" + timestamp
    ensures timestamp == [] || timestamp[|timestamp| - 1] != '/' ==> dirs.1 == dirs.0 + "/plots"
  {
    var run := RunName(caseName, timestamp);
    assert run[0] == 'r';
    var resultsDir := PathJoin(ResultsRoot, run);
    assert resultsDir == (ResultsRoot + "/" + "run_") + SanitizeName(caseName) + "_" + timestamp;
    assert resultsDir[|resultsDir| - 1] == (run)[|run| - 1];
    var curvesDir := PathJoin(resultsDir, "plots");
    (resultsDir, curvesDir)
  }
}
