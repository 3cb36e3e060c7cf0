/** The client's job scheduler (the main block of
    `mining_optimization_client.py`): an initial batch of jobs is dispatched,
    then every completed job is told to the optimiser and replaced by one new
    job until `N_CALLS` jobs have been dispatched.

    Threads are replaced by a sequential state machine. Which in-flight job
    completes next is an input: `schedule[k]` picks, modulo the number of jobs
    in flight, the position in `futures` (which keeps insertion order) of the
    k-th completion. The optimiser's `ask`/`tell` are abstract: the model
    follows job ids, not parameter values. */
module ClientDispatch {
  import MiningClient

  /** Together `told` and `inFlight` hold each job id `1..m` exactly once
      and nothing else. */
  ghost predicate Accounted(told: seq<nat>, inFlight: seq<nat>, m: nat)
  {
    forall x: nat :: multiset(told)[x] + multiset(inFlight)[x] == if 1 <= x <= m then 1 else 0
  }

  /** `futures` (job ids in insertion order), `total_jobs_dispatched`, the
      job ids told to the optimiser in order, and the server index each
      dispatched job was sent to (`servers[j - 1]` for job `j`). */
  datatype Dispatcher = Dispatcher(inFlight: seq<nat>, dispatched: nat, told: seq<nat>, servers: seq<nat>)

  /** Every dispatched job is either told or in flight, exactly once, and job
      `j` went to server `(j - 1) % numServers`. */
  ghost predicate Valid(d: Dispatcher, numServers: nat)
    requires numServers > 0
  {
    && Accounted(d.told, d.inFlight, d.dispatched)
    && |d.servers| == d.dispatched
    && forall j :: 0 <= j < |d.servers| ==> d.servers[j] == j % numServers
  }

  /** `N_INITIAL_POINTS if not x_prior else num_workers`. */
  function InitialBatch(hasPrior: bool): (n: nat)
    ensures n > 0
    ensures n == (if hasPrior then MiningClient.NumServers else MiningClient.NInitialPoints)
  {
    if hasPrior then MiningClient.NumServers else MiningClient.NInitialPoints
  }

  /** The initial batch: job `i + 1` on server `i % numServers`. */
  function Start(nInitial: nat, numServers: nat): Dispatcher
    requires numServers > 0
  {
    Dispatcher(seq(nInitial, i => i + 1), nInitial, [], seq(nInitial, i => i % numServers))
  }

  lemma StartValid(nInitial: nat, numServers: nat)
    requires numServers > 0
    ensures Valid(Start(nInitial, numServers), numServers)
    ensures |Start(nInitial, numServers).inFlight| == nInitial
  {
    StartJobs(nInitial, numServers);
  }

  lemma {:induction false} StartJobs(nInitial: nat, numServers: nat)
    requires numServers > 0
    ensures Accounted([], Start(nInitial, numServers).inFlight, nInitial)
  {
    if nInitial > 0 {
      StartJobs(nInitial - 1, numServers);
      assert Start(nInitial, numServers).inFlight
          == Start(nInitial - 1, numServers).inFlight + [nInitial];
    }
  }

  /** One pass of the `while` body: the job at position `i` of `futures`
      completes and is told; then, while fewer than `nCalls` jobs have been
      dispatched, the next job is dispatched round-robin. */
  function Complete(d: Dispatcher, i: nat, nCalls: nat, numServers: nat): (r: Dispatcher)
    requires numServers > 0 && i < |d.inFlight|
  {
    var rest := d.inFlight[..i] + d.inFlight[i + 1..];
    var told := d.told + [d.inFlight[i]];
    if d.dispatched < nCalls then
      Dispatcher(rest + [d.dispatched + 1], d.dispatched + 1, told, d.servers + [d.dispatched % numServers])
    else
      Dispatcher(rest, d.dispatched, told, d.servers)
  }

  /** Moving the job at position `i` of `f` to the end of `t` keeps every
      job accounted for. */
  lemma MoveToTold(t: seq<nat>, f: seq<nat>, i: nat, m: nat)
    requires i < |f| && Accounted(t, f, m)
    ensures Accounted(t + [f[i]], f[..i] + f[i + 1..], m)
  {
    assert f == f[..i] + [f[i]] + f[i + 1..];
    assert multiset(t + [f[i]]) + multiset(f[..i] + f[i + 1..]) == multiset(t) + multiset(f);
  }

  /** Dispatching job `m + 1` accounts for jobs `1..m + 1`. */
  lemma DispatchNext(t: seq<nat>, f: seq<nat>, m: nat)
    requires Accounted(t, f, m)
    ensures Accounted(t, f + [m + 1], m + 1)
  {
    var added: nat := m + 1;
    var extended: seq<nat> := f + [added];
    assert multiset(extended) == multiset(f) + multiset{added};
  }

  /** Removing position `i` and appending the next job keeps every
      dispatched job accounted for once. */
  lemma CompleteJobs(d: Dispatcher, i: nat, nCalls: nat, numServers: nat)
    requires numServers > 0 && i < |d.inFlight|
    requires Accounted(d.told, d.inFlight, d.dispatched)
    ensures var r := Complete(d, i, nCalls, numServers);
      Accounted(r.told, r.inFlight, r.dispatched)
  {
    MoveToTold(d.told, d.inFlight, i, d.dispatched);
    if d.dispatched < nCalls {
      DispatchNext(d.told + [d.inFlight[i]], d.inFlight[..i] + d.inFlight[i + 1..], d.dispatched);
    }
  }

  lemma CompleteServers(d: Dispatcher, i: nat, nCalls: nat, numServers: nat)
    requires numServers > 0 && i < |d.inFlight|
    requires |d.servers| == d.dispatched
    requires forall j :: 0 <= j < |d.servers| ==> d.servers[j] == j % numServers
    ensures var r := Complete(d, i, nCalls, numServers);
      && |r.servers| == r.dispatched
      && forall j :: 0 <= j < |r.servers| ==> r.servers[j] == j % numServers
  {
  }

  /** A completion tells exactly the completed job and keeps the in-flight
      window at its width while jobs remain to be dispatched. */
  lemma CompleteStep(d: Dispatcher, i: nat, nCalls: nat, numServers: nat)
    requires numServers > 0 && i < |d.inFlight| && Valid(d, numServers)
    ensures var r := Complete(d, i, nCalls, numServers);
      && Valid(r, numServers)
      && r.told == d.told + [d.inFlight[i]]
      && (d.dispatched < nCalls ==> r.dispatched == d.dispatched + 1 && |r.inFlight| == |d.inFlight|)
      && (d.dispatched >= nCalls ==> r.dispatched == d.dispatched && |r.inFlight| == |d.inFlight| - 1)
  {
    CompleteJobs(d, i, nCalls, numServers);
    CompleteServers(d, i, nCalls, numServers);
  }

  /** The position in `futures` of the job completing at step `k`. */
  function Pick(inFlight: seq<nat>, schedule: seq<nat>, k: nat): (i: nat)
    requires |inFlight| > 0
    ensures i < |inFlight|
  {
    if k < |schedule| then schedule[k] % |inFlight| else 0
  }

  /** `while total_jobs_dispatched < N_CALLS`, from state `d` at step `k`. */
  function Run(d: Dispatcher, schedule: seq<nat>, k: nat, nCalls: nat, numServers: nat): Dispatcher
    requires numServers > 0
    requires d.dispatched >= nCalls || |d.inFlight| > 0
    decreases nCalls - d.dispatched
  {
    if d.dispatched >= nCalls then d
    else Run(Complete(d, Pick(d.inFlight, schedule, k), nCalls, numServers), schedule, k + 1, nCalls, numServers)
  }

  /** The loop stops at `nCalls` dispatched jobs, having told one job per
      iteration and with as many jobs in flight as when it started. */
  lemma {:induction false} RunOutcome(d: Dispatcher, schedule: seq<nat>, k: nat, nCalls: nat, numServers: nat)
    requires numServers > 0 && Valid(d, numServers)
    requires d.dispatched >= nCalls || |d.inFlight| > 0
    ensures var r := Run(d, schedule, k, nCalls, numServers);
      && Valid(r, numServers)
      && r.dispatched == (if d.dispatched >= nCalls then d.dispatched else nCalls)
      && |r.told| == |d.told| + (r.dispatched - d.dispatched)
      && |r.inFlight| == |d.inFlight|
    decreases nCalls - d.dispatched
  {
    if d.dispatched < nCalls {
      var i := Pick(d.inFlight, schedule, k);
      var next := Complete(d, i, nCalls, numServers);
      CompleteStep(d, i, nCalls, numServers);
      assert Valid(next, numServers);
      assert |next.inFlight| == |d.inFlight|;
      RunOutcome(next, schedule, k + 1, nCalls, numServers);
    }
  }

  /** A told job is a dispatched job, and none is told twice. */
  lemma ToldOnce(d: Dispatcher, numServers: nat)
    requires numServers > 0 && Valid(d, numServers)
    ensures forall x :: x in d.told ==> 1 <= x <= d.dispatched
    ensures forall x :: multiset(d.told)[x] <= 1
  {
    forall x | x in d.told ensures 1 <= x <= d.dispatched {
      assert multiset(d.told)[x] >= 1;
    }
  }

  /** The main block's scheduler: the initial batch, then the `while` loop
      with its one-completion `for`/`break` body. */
  method DispatchLoop(nCalls: nat, nInitial: nat, numServers: nat, schedule: seq<nat>)
    returns (d: Dispatcher)
    requires numServers > 0
    requires nInitial == 0 ==> nCalls == 0   // otherwise `as_completed({})` yields nothing and the loop spins
    ensures d == Run(Start(nInitial, numServers), schedule, 0, nCalls, numServers)
  {
    var futures: seq<nat> := [];
    var servers: seq<nat> := [];
    var i := 0;
    while i < nInitial
      invariant 0 <= i <= nInitial
      invariant futures == seq(i, j => j + 1) && servers == seq(i, j => j % numServers)
    {
      futures := futures + [i + 1];
      servers := servers + [i % numServers];
      i := i + 1;
    }
    var totalJobsDispatched := |futures|;
    var told: seq<nat> := [];
    var k := 0;
    while totalJobsDispatched < nCalls
      invariant |futures| == nInitial
      invariant Run(Dispatcher(futures, totalJobsDispatched, told, servers), schedule, k, nCalls, numServers)
             == Run(Start(nInitial, numServers), schedule, 0, nCalls, numServers)
      decreases nCalls - totalJobsDispatched
    {
      var at := Pick(futures, schedule, k);
      var completedJob := futures[at];
      futures := futures[..at] + futures[at + 1..];
      told := told + [completedJob];
      if totalJobsDispatched < nCalls {
        servers := servers + [totalJobsDispatched % numServers];
        totalJobsDispatched := totalJobsDispatched + 1;
        futures := futures + [totalJobsDispatched];
      }
      k := k + 1;
    }
    d := Dispatcher(futures, totalJobsDispatched, told, servers);
  }

  /** What the scheduler does, for any completion order: `max(nInitial,
      nCalls)` jobs are dispatched, consecutively numbered and round-robin;
      each told job is told once; but only `dispatched - nInitial` jobs are
      told, the last `nInitial` staying in flight when the loop exits. */
  lemma DispatchOutcome(nCalls: nat, nInitial: nat, numServers: nat, schedule: seq<nat>)
    requires numServers > 0 && (nInitial == 0 ==> nCalls == 0)
    ensures var d := Run(Start(nInitial, numServers), schedule, 0, nCalls, numServers);
      && d.dispatched == (if nInitial >= nCalls then nInitial else nCalls)
      && |d.servers| == d.dispatched
      && (forall j :: 0 <= j < d.dispatched ==> d.servers[j] == j % numServers)
      && (forall x :: x in d.told ==> 1 <= x <= d.dispatched)
      && (forall x :: multiset(d.told)[x] <= 1)
      && |d.told| == d.dispatched - nInitial
      && |d.inFlight| == nInitial
  {
    StartValid(nInitial, numServers);
    RunOutcome(Start(nInitial, numServers), schedule, 0, nCalls, numServers);
    ToldOnce(Run(Start(nInitial, numServers), schedule, 0, nCalls, numServers), numServers);
  }

  /** With the client's settings, 50 calls and no prior data, 45 results
      reach the optimiser and 5 are never told, whatever the completion
      order; with prior data the initial batch is 2 and 2 are lost. */
  lemma LastBatchNeverTold(schedule: seq<nat>, hasPrior: bool)
    ensures var d := Run(Start(InitialBatch(hasPrior), MiningClient.NumServers), schedule, 0,
                         MiningClient.NCalls, MiningClient.NumServers);
      && d.dispatched == 50
      && |d.told| == (if hasPrior then 48 else 45)
      && |d.inFlight| == (if hasPrior then 2 else 5)
  {
    DispatchOutcome(MiningClient.NCalls, InitialBatch(hasPrior), MiningClient.NumServers, schedule);
  }

  // ---------------------------------------------------------------------------
  // Corrected scheduler: the jobs still in flight are told after the loop
  // ---------------------------------------------------------------------------

  /** Tell the remaining in-flight jobs in completion order, dispatching
      nothing more. */
  function Drain(d: Dispatcher, schedule: seq<nat>, k: nat, numServers: nat): Dispatcher
    requires numServers > 0
    decreases |d.inFlight|
  {
    if |d.inFlight| == 0 then d
    else Drain(Complete(d, Pick(d.inFlight, schedule, k), 0, numServers), schedule, k + 1, numServers)
  }

  lemma {:induction false} DrainOutcome(d: Dispatcher, schedule: seq<nat>, k: nat, numServers: nat)
    requires numServers > 0 && Valid(d, numServers)
    ensures var r := Drain(d, schedule, k, numServers);
      && Valid(r, numServers) && r.inFlight == [] && r.dispatched == d.dispatched
      && |r.told| == |d.told| + |d.inFlight|
    decreases |d.inFlight|
  {
    if |d.inFlight| > 0 {
      var i := Pick(d.inFlight, schedule, k);
      var next := Complete(d, i, 0, numServers);
      CompleteStep(d, i, 0, numServers);
      assert Valid(next, numServers);
      DrainOutcome(next, schedule, k + 1, numServers);
    }
  }

  /** With the drain, the told jobs are exactly jobs `1..dispatched`, each
      once, in some completion order. */
  lemma DrainedTellsEveryJob(nCalls: nat, nInitial: nat, numServers: nat, schedule: seq<nat>)
    requires numServers > 0 && (nInitial == 0 ==> nCalls == 0)
    ensures var ran := Run(Start(nInitial, numServers), schedule, 0, nCalls, numServers);
      var d := Drain(ran, schedule, |ran.told|, numServers);
      && d.dispatched == (if nInitial >= nCalls then nInitial else nCalls)
      && (forall x: nat :: multiset(d.told)[x] == if 1 <= x <= d.dispatched then 1 else 0)
      && |d.told| == d.dispatched
  {
    StartValid(nInitial, numServers);
    var ran := Run(Start(nInitial, numServers), schedule, 0, nCalls, numServers);
    RunOutcome(Start(nInitial, numServers), schedule, 0, nCalls, numServers);
    DrainOutcome(ran, schedule, |ran.told|, numServers);
    var d := Drain(ran, schedule, |ran.told|, numServers);
    assert Accounted(d.told, [], d.dispatched);
  }

  /** The scheduler followed by `as_completed` over what is left in flight:
      every dispatched job is told exactly once. */
  method DispatchLoopDrained(nCalls: nat, nInitial: nat, numServers: nat, schedule: seq<nat>)
    returns (d: Dispatcher)
    requires numServers > 0 && (nInitial == 0 ==> nCalls == 0)
    ensures forall x: nat :: multiset(d.told)[x] == if 1 <= x <= d.dispatched then 1 else 0
    ensures d.dispatched == (if nInitial >= nCalls then nInitial else nCalls)
    ensures d.inFlight == []
  {
    var ran := DispatchLoop(nCalls, nInitial, numServers, schedule);
    var futures := ran.inFlight;
    var told := ran.told;
    var k: nat := |ran.told|;
    while |futures| > 0
      invariant Drain(Dispatcher(futures, ran.dispatched, told, ran.servers), schedule, k, numServers)
             == Drain(ran, schedule, |ran.told|, numServers)
      decreases |futures|
    {
      var at := Pick(futures, schedule, k);
      told := told + [futures[at]];
      futures := futures[..at] + futures[at + 1..];
      k := k + 1;
    }
    d := Dispatcher(futures, ran.dispatched, told, ran.servers);
    DrainedTellsEveryJob(nCalls, nInitial, numServers, schedule);
  }
}
