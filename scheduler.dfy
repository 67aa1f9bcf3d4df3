/**
 The Scheduler of the orchestrator: it holds the tasks, an option hash
 (`metadata`), a small configuration hash (`config`: `noop`, `arguments`),
 the scheduling strategy, and the event dispatcher. `Run` computes jobs with
 the strategy, then runs them serially (or hands them to the concurrent
 path), applying the failure policy and notifying the dispatcher at every
 step.

 The dispatcher is modelled by the ordered list of notifications it has
 been asked to deliver (`events`). The calls made to `job.run` are recorded
 in `invocations`, so that "noop never runs a job" can be stated, and each
 call's place among the notifications in `calledAt`.
 What lies outside the scheduler is given as total functions:
 the strategy's `compute_jobs`, each job's `run`, and the effect of
 `concurrent_run` with its thread pool.
 */
module Scheduling {
  import opened RubyValues

  datatype Task = Task(name: string, metadata: map<string, Value>)

  datatype Job = Job(name: string, tasks: seq<Task>, hosts: seq<string>)

  datatype Strategy = Default | PerHost | PerTask

  /** The handlers registered with the dispatcher; `Doc` is the documentation handler. */
  datatype Handler = Doc

  datatype LockProperties = LockProperties(driver: Value, driverOptions: map<string, Value>)

  /** What can be raised during a run. */
  datatype Error =
    | Raised(message: string)            // raised by the strategy or by a job's run
    | NotComparable(concurrency: Value)  // `metadata[:concurrency] > 1` on a value that is no integer

  datatype Event =
    | RunStarted
    | JobComputationStarted(strategy: Strategy)
    | JobComputationFinished(jobs: seq<Job>)
    | RunFinished
    | RunFailed(error: Error)
    | JobStarted(job: Job)
    | JobFinished(job: Job)
    | JobFailed(job: Job, error: Error)

  /** What `run` gives its caller: the jobs, or the error it re-raises. */
  datatype Outcome = Returned(jobs: seq<Job>) | Failed(error: Error)

  /** The strategy's `compute_jobs(tasks)`: the jobs, or what it raises. */
  type Compute = (Strategy, seq<Task>) -> Result<seq<Job>, Error>

  /** A job's `run`: `None` when it returns, `Some(e)` when it raises `e`. */
  type JobRun = Job -> Option<Error>

  /**
   The effect of running jobs: the notifications sent, the jobs whose `run`
   was called, for each call how many of the effect's notifications had been
   sent before it, and the error that escaped, if any.
   */
  datatype Effect = Effect(events: seq<Event>, invoked: seq<Job>, calledAt: seq<nat>, raised: Option<Error>)

  /** Positions counted from `k` notifications further on. */
  function Shift(positions: seq<nat>, k: nat): (r: seq<nat>)
    ensures |r| == |positions|
  {
    seq(|positions|, i requires 0 <= i < |positions| => positions[i] + k)
  }

  lemma ShiftConcat(a: seq<nat>, b: seq<nat>, k: nat)
    ensures Shift(a + b, k) == Shift(a, k) + Shift(b, k)
  {
  }

  lemma ShiftShift(s: seq<nat>, j: nat, k: nat)
    ensures Shift(Shift(s, j), k) == Shift(s, j + k)
  {
  }

  /** `concurrent_run(jobs)` with its thread pool, whose effect is given. */
  type Pool = seq<Job> -> Effect

  predicate IsJobEvent(e: Event) {
    e.JobStarted? || e.JobFinished? || e.JobFailed?
  }

  /** The metadata every scheduler starts from, before the options are merged in. */
  function DefaultMetadata(): (m: map<string, Value>)
    ensures m.Keys == {"ignore_failure", "concurrency", "handlers", "members"}
  {
    map["ignore_failure" := Bool(false), "concurrency" := Int(0),
        "handlers" := List([]), "members" := List([])]
  }

  /** The configuration hash as the constructor sets it up from the options. */
  function InitialConfig(options: map<string, Value>): (c: map<string, Value>)
    ensures c.Keys == {"noop", "arguments"}
    ensures !Truthy(Fetch(options, "noop")) ==> c["noop"] == Bool(false)
    ensures Truthy(Fetch(options, "noop")) ==> c["noop"] == options["noop"]
    ensures !Truthy(Fetch(options, "arguments")) ==> c["arguments"] == List([])
    ensures Truthy(Fetch(options, "arguments")) ==> c["arguments"] == options["arguments"]
  {
    map["noop" := Or(Fetch(options, "noop"), Bool(false)),
        "arguments" := Or(Fetch(options, "arguments"), List([]))]
  }

  /**
   `blender_config(key)`: the configuration hash is created with a default
   block, so a key that was never stored reads as a new empty hash.
   */
  function ConfigValue(config: map<string, Value>, key: string): (v: Value)
    ensures key in config ==> v == config[key]
    ensures key !in config ==> v == Hash([])
  {
    if key in config then config[key] else Hash([])
  }

  /**
   The test `metadata[:concurrency] > 1`: whether the concurrent branch is
   taken, or the error Ruby raises when the value is not an integer.
   */
  function Concurrent(metadata: map<string, Value>): (r: Result<bool, Error>)
    ensures r.Ok? <==> Fetch(metadata, "concurrency").Int?
    ensures r == Ok(true) <==> Fetch(metadata, "concurrency").Int? && Fetch(metadata, "concurrency").i > 1
    ensures r.Err? ==> r.error == NotComparable(Fetch(metadata, "concurrency"))
  {
    match Fetch(metadata, "concurrency")
    case Int(c) => Ok(c > 1)
    case v => Err(NotComparable(v))
  }

  /** Whether running `job` raises an error that `run_job` lets escape. */
  predicate Aborts(job: Job, noop: bool, ignoreFailure: bool, run: JobRun) {
    !noop && run(job).Some? && !ignoreFailure
  }

  /** The notification that ends `job`'s part of the log. */
  function Terminal(job: Job, noop: bool, run: JobRun): Event {
    if !noop && run(job).Some? then JobFailed(job, run(job).value) else JobFinished(job)
  }

  /** `run_job(job)`, as an effect. */
  function RunJobEffect(job: Job, noop: bool, ignoreFailure: bool, run: JobRun): (e: Effect)
    ensures e.events == [JobStarted(job), Terminal(job, noop, run)]
    ensures e.invoked == if noop then [] else [job]
    ensures e.calledAt == if noop then [] else [1]
    ensures e.raised.Some? <==> Aborts(job, noop, ignoreFailure, run)
    ensures e.raised.Some? ==> e.raised == run(job)
  {
    var failure := if noop then None else run(job);
    var invoked := if noop then [] else [job];
    var calledAt := if noop then [] else [1];
    match failure
    case None => Effect([JobStarted(job), JobFinished(job)], invoked, calledAt, None)
    case Some(err) =>
      Effect([JobStarted(job), JobFailed(job, err)], invoked, calledAt, if ignoreFailure then None else Some(err))
  }

  /** One effect followed by another; what escapes is what the second lets escape. */
  function Then(a: Effect, b: Effect): Effect {
    Effect(a.events + b.events, a.invoked + b.invoked, a.calledAt + Shift(b.calledAt, |a.events|), b.raised)
  }

  /** The call positions of two effects in a row, counted from `k` notifications on. */
  lemma ThenShift(a: Effect, b: Effect, k: nat)
    ensures Shift(Then(a, b).calledAt, k) == Shift(a.calledAt, k) + Shift(b.calledAt, k + |a.events|)
  {
    ShiftConcat(a.calledAt, Shift(b.calledAt, |a.events|), k);
    ShiftShift(b.calledAt, |a.events|, k);
  }

  /**
   `serial_run(jobs)`: `run_job` on each job in order; the first error that
   escapes a job leaves the loop, so no later job is started.
   */
  function SerialEffect(jobs: seq<Job>, noop: bool, ignoreFailure: bool, run: JobRun): Effect
    decreases |jobs|
  {
    if jobs == [] then Effect([], [], [], None)
    else
      var before := SerialEffect(jobs[..|jobs| - 1], noop, ignoreFailure, run);
      if before.raised.Some? then before
      else Then(before, RunJobEffect(jobs[|jobs| - 1], noop, ignoreFailure, run))
  }

  lemma SplitLast<T>(s: seq<T>)
    requires s != []
    ensures s == s[..|s| - 1] + [s[|s| - 1]]
  {
  }

  /** The index of the first job whose error escapes, or `|jobs|` when there is none. */
  function FirstAbort(jobs: seq<Job>, noop: bool, ignoreFailure: bool, run: JobRun): (f: nat)
    ensures f <= |jobs|
    ensures forall k :: 0 <= k < f ==> !Aborts(jobs[k], noop, ignoreFailure, run)
    ensures f < |jobs| ==> Aborts(jobs[f], noop, ignoreFailure, run)
    decreases |jobs|
  {
    if jobs == [] then 0
    else
      var f := FirstAbort(jobs[..|jobs| - 1], noop, ignoreFailure, run);
      if f < |jobs| - 1 then f
      else if Aborts(jobs[|jobs| - 1], noop, ignoreFailure, run) then |jobs| - 1
      else |jobs|
  }

  /** How many jobs `serial_run` starts: up to and including the first that aborts. */
  function StartedCount(jobs: seq<Job>, noop: bool, ignoreFailure: bool, run: JobRun): (n: nat)
    ensures n <= |jobs|
  {
    var f := FirstAbort(jobs, noop, ignoreFailure, run);
    if f < |jobs| then f + 1 else |jobs|
  }

  /** Each job's `job_started` immediately followed by its `job_finished` or `job_failed`. */
  function Blocks(jobs: seq<Job>, noop: bool, run: JobRun): seq<Event>
    decreases |jobs|
  {
    if jobs == [] then []
    else Blocks(jobs[..|jobs| - 1], noop, run) + [JobStarted(jobs[|jobs| - 1]), Terminal(jobs[|jobs| - 1], noop, run)]
  }

  /** Job k's two notifications sit at positions 2k and 2k+1, so job k ends before job k+1 starts. */
  lemma {:induction false} BlocksAt(jobs: seq<Job>, noop: bool, run: JobRun, k: nat)
    requires k < |jobs|
    ensures |Blocks(jobs, noop, run)| == 2 * |jobs|
    ensures Blocks(jobs, noop, run)[2 * k] == JobStarted(jobs[k])
    ensures Blocks(jobs, noop, run)[2 * k + 1] == Terminal(jobs[k], noop, run)
    decreases |jobs|
  {
    var init := jobs[..|jobs| - 1];
    if k < |init| {
      BlocksAt(init, noop, run, k);
    } else if init != [] {
      BlocksAt(init, noop, run, 0);
    }
  }

  /** The jobs named by the `job_started` notifications of a log, in order. */
  function StartedJobs(events: seq<Event>): seq<Job>
  {
    if events == [] then []
    else
      var last := events[|events| - 1];
      StartedJobs(events[..|events| - 1]) + if last.JobStarted? then [last.job] else []
  }

  /** Every job of the list is started exactly once, in list order. */
  lemma {:induction false} BlocksStartEachOnce(jobs: seq<Job>, noop: bool, run: JobRun)
    ensures StartedJobs(Blocks(jobs, noop, run)) == jobs
    decreases |jobs|
  {
    if jobs != [] {
      var init := jobs[..|jobs| - 1];
      var last := jobs[|jobs| - 1];
      var b := Blocks(init, noop, run);
      BlocksStartEachOnce(init, noop, run);
      var withStart := b + [JobStarted(last)];
      assert (withStart + [Terminal(last, noop, run)])[..|withStart|] == withStart;
      assert withStart[..|b|] == b;
      assert Blocks(jobs, noop, run) == withStart + [Terminal(last, noop, run)];
    }
  }

  /** A serial run lets escape the error of the first aborting job, and nothing when no job aborts. */
  lemma {:induction false} SerialRaised(jobs: seq<Job>, noop: bool, ignoreFailure: bool, run: JobRun)
    ensures var f := FirstAbort(jobs, noop, ignoreFailure, run);
            SerialEffect(jobs, noop, ignoreFailure, run).raised == if f < |jobs| then run(jobs[f]) else None
    decreases |jobs|
  {
    if jobs != [] {
      var init := jobs[..|jobs| - 1];
      SerialRaised(init, noop, ignoreFailure, run);
      assert forall k :: 0 <= k < |init| ==> init[k] == jobs[k];
    }
  }

  /**
   The notifications of a serial run: jobs `0 .. n-1` are started, each
   one's `job_started` immediately followed by its `job_finished` or
   `job_failed`; `n` counts the jobs up to and including the first that aborts.
   */
  lemma {:induction false} SerialShape(jobs: seq<Job>, noop: bool, ignoreFailure: bool, run: JobRun)
    ensures SerialEffect(jobs, noop, ignoreFailure, run).events
            == Blocks(jobs[..StartedCount(jobs, noop, ignoreFailure, run)], noop, run)
    decreases |jobs|
  {
    if jobs != [] {
      var init := jobs[..|jobs| - 1];
      var last := jobs[|jobs| - 1];
      var before := SerialEffect(init, noop, ignoreFailure, run);
      var fi := FirstAbort(init, noop, ignoreFailure, run);
      SerialShape(init, noop, ignoreFailure, run);
      SerialRaised(init, noop, ignoreFailure, run);
      if fi < |init| {
        assert SerialEffect(jobs, noop, ignoreFailure, run) == before;
        assert StartedCount(jobs, noop, ignoreFailure, run) == fi + 1;
        assert init[..fi + 1] == jobs[..fi + 1];
      } else {
        var one := RunJobEffect(last, noop, ignoreFailure, run);
        assert SerialEffect(jobs, noop, ignoreFailure, run).events == before.events + one.events;
        assert StartedCount(jobs, noop, ignoreFailure, run) == |jobs|;
        assert init[..|init|] == init;
        assert jobs[..|jobs|] == jobs;
      }
    }
  }

  /** `job.run` is called once for each started job, in order, and never when noop is set. */
  lemma {:induction false} SerialInvokes(jobs: seq<Job>, noop: bool, ignoreFailure: bool, run: JobRun)
    ensures SerialEffect(jobs, noop, ignoreFailure, run).invoked
            == if noop then [] else jobs[..StartedCount(jobs, noop, ignoreFailure, run)]
    decreases |jobs|
  {
    if jobs != [] {
      var init := jobs[..|jobs| - 1];
      var last := jobs[|jobs| - 1];
      var before := SerialEffect(init, noop, ignoreFailure, run);
      var fi := FirstAbort(init, noop, ignoreFailure, run);
      SerialInvokes(init, noop, ignoreFailure, run);
      SerialRaised(init, noop, ignoreFailure, run);
      if fi < |init| {
        assert SerialEffect(jobs, noop, ignoreFailure, run) == before;
        assert StartedCount(jobs, noop, ignoreFailure, run) == fi + 1;
        assert init[..fi + 1] == jobs[..fi + 1];
      } else {
        var one := RunJobEffect(last, noop, ignoreFailure, run);
        assert SerialEffect(jobs, noop, ignoreFailure, run).invoked == before.invoked + one.invoked;
        assert StartedCount(jobs, noop, ignoreFailure, run) == |jobs|;
        assert jobs[..|jobs|] == jobs;
        if !noop {
          assert init[..|init|] == init;
          SplitLast(jobs);
        }
      }
    }
  }

  /** A serial run sends job notifications only. */
  lemma {:induction false} BlocksAreJobEvents(jobs: seq<Job>, noop: bool, run: JobRun)
    ensures forall i :: 0 <= i < |Blocks(jobs, noop, run)| ==> IsJobEvent(Blocks(jobs, noop, run)[i])
    decreases |jobs|
  {
    if jobs != [] {
      BlocksAreJobEvents(jobs[..|jobs| - 1], noop, run);
    }
  }

  /**
   Once a prefix of the jobs has let an error escape, the rest of the list
   changes nothing: `serial_run` has already left its loop.
   */
  lemma {:induction false} SerialStopsAtRaise(jobs: seq<Job>, i: nat, noop: bool, ignoreFailure: bool, run: JobRun)
    requires i <= |jobs|
    requires SerialEffect(jobs[..i], noop, ignoreFailure, run).raised.Some?
    ensures SerialEffect(jobs, noop, ignoreFailure, run) == SerialEffect(jobs[..i], noop, ignoreFailure, run)
    decreases |jobs| - i
  {
    if i < |jobs| {
      var init := jobs[..|jobs| - 1];
      assert init[..i] == jobs[..i];
      SerialStopsAtRaise(init, i, noop, ignoreFailure, run);
    } else {
      assert jobs[..i] == jobs;
    }
  }

  /** One more job after jobs that let nothing escape. */
  lemma SerialStep(jobs: seq<Job>, i: nat, noop: bool, ignoreFailure: bool, run: JobRun)
    requires i < |jobs|
    requires SerialEffect(jobs[..i], noop, ignoreFailure, run).raised.None?
    ensures SerialEffect(jobs[..i + 1], noop, ignoreFailure, run)
            == Then(SerialEffect(jobs[..i], noop, ignoreFailure, run), RunJobEffect(jobs[i], noop, ignoreFailure, run))
  {
    assert jobs[..i + 1][..i] == jobs[..i];
  }

  /**
   Without noop each started job's `run` is called once, after its
   `job_started`: call k comes when 2k + 1 notifications have been sent.
   */
  lemma {:induction false} SerialCalls(jobs: seq<Job>, noop: bool, ignoreFailure: bool, run: JobRun)
    ensures var e := SerialEffect(jobs, noop, ignoreFailure, run);
            && |e.calledAt| == |e.invoked|
            && (!noop ==> |e.events| == 2 * |e.calledAt|)
            && (!noop ==> forall k :: 0 <= k < |e.calledAt| ==> e.calledAt[k] == 2 * k + 1)
    decreases |jobs|
  {
    if jobs != [] {
      var init := jobs[..|jobs| - 1];
      var before := SerialEffect(init, noop, ignoreFailure, run);
      SerialCalls(init, noop, ignoreFailure, run);
      if before.raised.None? {
        var step := RunJobEffect(jobs[|jobs| - 1], noop, ignoreFailure, run);
        if !noop {
          assert Shift(step.calledAt, |before.events|) == [2 * |before.calledAt| + 1];
        }
      }
    }
  }

  /**
   In a serial run without noop, job k's `run` is called after its
   `job_started` (notification 2k) and before its `job_finished` or
   `job_failed` (notification 2k + 1), hence after every notification of
   the jobs before it.
   */
  lemma SerialCallOrder(jobs: seq<Job>, ignoreFailure: bool, run: JobRun)
    ensures var e := SerialEffect(jobs, false, ignoreFailure, run);
            && |e.calledAt| == |e.invoked|
            && forall k :: 0 <= k < |e.invoked| ==>
                 && e.calledAt[k] == 2 * k + 1
                 && 2 * k + 1 < |e.events|
                 && e.events[2 * k] == JobStarted(e.invoked[k])
                 && e.events[2 * k + 1] == Terminal(e.invoked[k], false, run)
  {
    var e := SerialEffect(jobs, false, ignoreFailure, run);
    var n := StartedCount(jobs, false, ignoreFailure, run);
    SerialCalls(jobs, false, ignoreFailure, run);
    SerialInvokes(jobs, false, ignoreFailure, run);
    SerialShape(jobs, false, ignoreFailure, run);
    forall k | 0 <= k < |e.invoked|
      ensures 2 * k + 1 < |e.events|
      ensures e.events[2 * k] == JobStarted(e.invoked[k])
      ensures e.events[2 * k + 1] == Terminal(e.invoked[k], false, run)
    {
      BlocksAt(jobs[..n], false, run, k);
    }
  }

  /**
   The logs after one more job, written as the logs before it followed by
   that job's `run_job` effect, counted from `sent` earlier notifications.
   */
  lemma SerialAdvance(jobs: seq<Job>, i: nat, noop: bool, ignoreFailure: bool, run: JobRun,
                      events: seq<Event>, invoked: seq<Job>, calledAt: seq<nat>)
    requires i < |jobs|
    requires SerialEffect(jobs[..i], noop, ignoreFailure, run).raised.None?
    ensures var before := SerialEffect(jobs[..i], noop, ignoreFailure, run);
            var step := RunJobEffect(jobs[i], noop, ignoreFailure, run);
            var after := SerialEffect(jobs[..i + 1], noop, ignoreFailure, run);
            && after.raised == step.raised
            && events + before.events + step.events == events + after.events
            && invoked + before.invoked + step.invoked == invoked + after.invoked
            && calledAt + Shift(before.calledAt, |events|) + Shift(step.calledAt, |events + before.events|)
               == calledAt + Shift(after.calledAt, |events|)
  {
    var before := SerialEffect(jobs[..i], noop, ignoreFailure, run);
    var step := RunJobEffect(jobs[i], noop, ignoreFailure, run);
    SerialStep(jobs, i, noop, ignoreFailure, run);
    ConcatAssoc(events, before.events, step.events);
    ConcatAssoc(invoked, before.invoked, step.invoked);
    ThenShift(before, step, |events|);
    ConcatAssoc(calledAt, Shift(before.calledAt, |events|), Shift(step.calledAt, |events| + |before.events|));
  }

  /** With noop set, no job's `run` is called, nothing escapes, and every job is started and finished. */
  lemma NoopRunsNothing(jobs: seq<Job>, ignoreFailure: bool, run: JobRun)
    ensures var e := SerialEffect(jobs, true, ignoreFailure, run);
            && e.invoked == []
            && e.raised == None
            && StartedJobs(e.events) == jobs
            && |e.events| == 2 * |jobs|
            && forall k :: 0 <= k < |jobs| ==>
                 e.events[2 * k] == JobStarted(jobs[k]) && e.events[2 * k + 1] == JobFinished(jobs[k])
  {
    SerialShape(jobs, true, ignoreFailure, run);
    SerialInvokes(jobs, true, ignoreFailure, run);
    SerialRaised(jobs, true, ignoreFailure, run);
    assert jobs[..|jobs|] == jobs;
    BlocksStartEachOnce(jobs, true, run);
    var b := Blocks(jobs, true, run);
    forall k | 0 <= k < |jobs|
      ensures |b| == 2 * |jobs| && b[2 * k] == JobStarted(jobs[k]) && b[2 * k + 1] == JobFinished(jobs[k])
    {
      BlocksAt(jobs, true, run, k);
    }
    if jobs == [] {
      assert b == [];
    } else {
      BlocksAt(jobs, true, run, 0);
    }
  }

  /**
   With `ignore_failure` set, no error escapes a serial run, every job is
   started once in list order, and every failure is still reported by
   `job_failed` right after its job's `job_started`.
   */
  lemma IgnoredFailuresRunAll(jobs: seq<Job>, noop: bool, run: JobRun)
    ensures var e := SerialEffect(jobs, noop, true, run);
            && e.raised == None
            && StartedJobs(e.events) == jobs
            && e.events == Blocks(jobs, noop, run)
  {
    SerialShape(jobs, noop, true, run);
    SerialRaised(jobs, noop, true, run);
    BlocksStartEachOnce(jobs, noop, run);
    assert jobs[..|jobs|] == jobs;
  }

  /**
   Without `ignore_failure`, a serial run stops at the first job whose run
   raises: that job's `job_failed` is the last notification, its error is
   the one that escapes, and no later job is started or run.
   */
  lemma FirstFailureAborts(jobs: seq<Job>, run: JobRun, f: nat)
    requires f < |jobs| && run(jobs[f]).Some?
    requires forall k :: 0 <= k < f ==> run(jobs[k]).None?
    ensures var e := SerialEffect(jobs, false, false, run);
            && e.raised == run(jobs[f])
            && StartedJobs(e.events) == jobs[..f + 1]
            && e.invoked == jobs[..f + 1]
            && |e.events| == 2 * (f + 1)
            && e.events[2 * f + 1] == JobFailed(jobs[f], run(jobs[f]).value)
  {
    assert FirstAbort(jobs, false, false, run) == f;
    SerialShape(jobs, false, false, run);
    SerialInvokes(jobs, false, false, run);
    SerialRaised(jobs, false, false, run);
    BlocksStartEachOnce(jobs[..f + 1], false, run);
    BlocksAt(jobs[..f + 1], false, run, f);
  }

  /**
   The body that `run` wraps in the lock: the concurrent or serial branch,
   then `run_finished` and the jobs when nothing escaped.
   */
  function LockedBody(jobs: seq<Job>, metadata: map<string, Value>, noop: bool, run: JobRun, pool: Pool)
    : (Effect, Outcome)
  {
    match Concurrent(metadata)
    case Err(err) => (Effect([], [], [], Some(err)), Failed(err))
    case Ok(concurrent) =>
      var body := if concurrent then pool(jobs)
                  else SerialEffect(jobs, noop, Truthy(Fetch(metadata, "ignore_failure")), run);
      match body.raised
      case Some(err) => (body, Failed(err))
      case None => (Effect(body.events + [RunFinished], body.invoked, body.calledAt, None), Returned(jobs))
  }

  /** The whole of `run`, as the notifications it sends, the jobs it runs and its outcome. */
  datatype RunTrace = RunTrace(strategy: Strategy, events: seq<Event>, invoked: seq<Job>, calledAt: seq<nat>,
                               outcome: Outcome)

  /**
   `run`: the strategy falls back to Default; `run_started`,
   `job_computation_started`, the computation, `job_computation_finished`;
   then the locked body. Anything raised on the way is reported by
   `run_failed` and re-raised.
   */
  function RunSpec(current: Option<Strategy>, tasks: seq<Task>, metadata: map<string, Value>, noop: bool,
                   compute: Compute, run: JobRun, pool: Pool): RunTrace
  {
    var strategy := if current.Some? then current.value else Default;
    var opening := [RunStarted, JobComputationStarted(strategy)];
    match compute(strategy, tasks)
    case Err(err) => RunTrace(strategy, opening + [RunFailed(err)], [], [], Failed(err))
    case Ok(jobs) =>
      var (body, outcome) := LockedBody(jobs, metadata, noop, run, pool);
      var closing := if outcome.Failed? then [RunFailed(outcome.error)] else [];
      RunTrace(strategy, opening + [JobComputationFinished(jobs)] + body.events + closing, body.invoked,
               Shift(body.calledAt, 3), outcome)
  }

  /** `run` once the jobs are computed: the opening, the locked body, then `run_failed` when the body fails. */
  lemma RunComputed(current: Option<Strategy>, tasks: seq<Task>, metadata: map<string, Value>, noop: bool,
                    compute: Compute, run: JobRun, pool: Pool, strategy: Strategy, jobs: seq<Job>)
    requires strategy == if current.Some? then current.value else Default
    requires compute(strategy, tasks) == Ok(jobs)
    ensures var (body, outcome) := LockedBody(jobs, metadata, noop, run, pool);
            var t := RunSpec(current, tasks, metadata, noop, compute, run, pool);
            && t.strategy == strategy
            && t.events == [RunStarted, JobComputationStarted(strategy), JobComputationFinished(jobs)]
                           + body.events + (if outcome.Failed? then [RunFailed(outcome.error)] else [])
            && t.invoked == body.invoked
            && t.calledAt == Shift(body.calledAt, 3)
            && t.outcome == outcome
  {
  }

  /** The logs of `run`: earlier notifications, the opening three, the locked body's, the closing one. */
  lemma RunLogs(prior: seq<Event>, opening: seq<Event>, body: Effect, closing: seq<Event>)
    requires |opening| == 3
    ensures prior + opening + body.events + closing == prior + (opening + body.events + closing)
    ensures Shift(body.calledAt, |prior + opening|) == Shift(Shift(body.calledAt, 3), |prior|)
  {
    ConcatAssoc(prior, opening + body.events, closing);
    ConcatAssoc(prior, opening, body.events);
    ShiftShift(body.calledAt, 3, |prior|);
  }

  /**
   The opening of every run: the strategy kept when one is set and Default
   otherwise, then `run_started`, `job_computation_started` and, once the
   jobs are computed, `job_computation_finished` with exactly those jobs.
   */
  lemma RunOpening(current: Option<Strategy>, tasks: seq<Task>, metadata: map<string, Value>, noop: bool,
                   compute: Compute, run: JobRun, pool: Pool)
    ensures var t := RunSpec(current, tasks, metadata, noop, compute, run, pool);
            && t.strategy == (if current.Some? then current.value else Default)
            && |t.events| >= 3
            && t.events[0] == RunStarted
            && t.events[1] == JobComputationStarted(t.strategy)
            && (compute(t.strategy, tasks).Ok? ==>
                  t.events[2] == JobComputationFinished(compute(t.strategy, tasks).value))
  {
  }

  /**
   What the locked body sends: job notifications only, followed by
   `run_finished` when it returns, in which case it returns the jobs it was
   given. The concurrent path is taken to send job notifications only.
   */
  lemma LockedBodyShape(jobs: seq<Job>, metadata: map<string, Value>, noop: bool, run: JobRun, pool: Pool)
    requires forall js, i :: 0 <= i < |pool(js).events| ==> IsJobEvent(pool(js).events[i])
    ensures var (e, outcome) := LockedBody(jobs, metadata, noop, run, pool);
            && (outcome.Returned? ==>
                  && outcome.jobs == jobs
                  && |e.events| >= 1 && e.events[|e.events| - 1] == RunFinished
                  && forall i :: 0 <= i < |e.events| - 1 ==> IsJobEvent(e.events[i]))
            && (outcome.Failed? ==> forall i :: 0 <= i < |e.events| ==> IsJobEvent(e.events[i]))
  {
    if Concurrent(metadata).Ok? && !Concurrent(metadata).value {
      var ignoreFailure := Truthy(Fetch(metadata, "ignore_failure"));
      SerialShape(jobs, noop, ignoreFailure, run);
      BlocksAreJobEvents(jobs[..StartedCount(jobs, noop, ignoreFailure, run)], noop, run);
    }
  }

  /**
   How a run ends: on success `run_finished` is the last notification and the
   computed jobs are returned unchanged; on failure exactly one `run_failed`
   is sent, as the last notification, carrying the error that is re-raised;
   neither appears anywhere else in the log.
   */
  lemma RunEnding(current: Option<Strategy>, tasks: seq<Task>, metadata: map<string, Value>, noop: bool,
                  compute: Compute, run: JobRun, pool: Pool)
    requires forall js, i :: 0 <= i < |pool(js).events| ==> IsJobEvent(pool(js).events[i])
    ensures var t := RunSpec(current, tasks, metadata, noop, compute, run, pool);
            && |t.events| >= 3
            && (t.outcome.Returned? ==>
                  t.events[|t.events| - 1] == RunFinished && compute(t.strategy, tasks) == Ok(t.outcome.jobs))
            && (t.outcome.Failed? ==> t.events[|t.events| - 1] == RunFailed(t.outcome.error))
            && (forall i :: 0 <= i < |t.events| - 1 ==> !t.events[i].RunFailed? && !t.events[i].RunFinished?)
  {
    var strategy := if current.Some? then current.value else Default;
    if compute(strategy, tasks).Ok? {
      LockedBodyShape(compute(strategy, tasks).value, metadata, noop, run, pool);
    }
  }

  /** With the default metadata the serial branch is taken and failures are not ignored. */
  lemma DefaultMetadataIsSerial()
    ensures Concurrent(DefaultMetadata()) == Ok(false)
    ensures !Truthy(Fetch(DefaultMetadata(), "ignore_failure"))
  {
  }

  /** Any integer concurrency of at most one selects the serial branch; above one, the concurrent branch. */
  lemma SerialUpToOne(metadata: map<string, Value>, c: int)
    requires Fetch(metadata, "concurrency") == Int(c)
    ensures Concurrent(metadata) == Ok(c > 1)
  {
  }

  /**
   A run whose serial branch is taken with `ignore_failure` set returns the
   computed jobs whatever the jobs do: failures are reported but never raised.
   */
  lemma IgnoredRunReturns(current: Option<Strategy>, tasks: seq<Task>, metadata: map<string, Value>, noop: bool,
                          compute: Compute, run: JobRun, pool: Pool)
    requires Concurrent(metadata) == Ok(false)
    requires Truthy(Fetch(metadata, "ignore_failure"))
    requires compute(if current.Some? then current.value else Default, tasks).Ok?
    ensures var t := RunSpec(current, tasks, metadata, noop, compute, run, pool);
            t.outcome == Returned(compute(t.strategy, tasks).value)
  {
    var strategy := if current.Some? then current.value else Default;
    IgnoredFailuresRunAll(compute(strategy, tasks).value, noop, run);
  }

  class Scheduler {
    const name: string
    var tasks: seq<Task>
    /** The option hash, fixed at construction. */
    const metadata: map<string, Value>
    /** The configuration hash (`noop`, `arguments`, and whatever `update_config` stores). */
    var config: map<string, Value>
    var strategy: Option<Strategy>
    const handlers: seq<Handler>
    const lockProperties: LockProperties
    /** The notifications sent to the dispatcher, in order. */
    var events: seq<Event>
    /** The jobs whose `run` was called, in order. */
    var invocations: seq<Job>
    /** For each call of a job's `run`, how many notifications had been sent before it. */
    var calledAt: seq<nat>

    /**
     `initialize`: `noop` and `arguments` default to false and `[]`; the
     documentation handler is registered unless `no_doc` is truthy, and
     `no_doc` is removed from the options before they are merged over the
     default metadata.
     */
    constructor (name: string, tasks: seq<Task>, options: map<string, Value>)
      ensures this.name == name && this.tasks == tasks
      ensures config == InitialConfig(options)
      ensures handlers == if Truthy(Fetch(options, "no_doc")) then [] else [Doc]
      ensures metadata == DefaultMetadata() + (options - {"no_doc"})
      ensures strategy == None
      ensures lockProperties == LockProperties(Nil, map[])
      ensures events == [] && invocations == [] && calledAt == []
    {
      this.name := name;
      this.tasks := tasks;
      events := [];
      invocations := [];
      calledAt := [];
      config := InitialConfig(options);
      handlers := if Truthy(Fetch(options, "no_doc")) then [] else [Doc];
      metadata := DefaultMetadata() + (options - {"no_doc"});
      strategy := None;
      lockProperties := LockProperties(Nil, map[]);
    }

    /** `blender_config(key)`. */
    function BlenderConfig(key: string): (v: Value)
      reads this`config
      ensures key in config ==> v == config[key]
      ensures key !in config ==> v == Hash([])
    {
      ConfigValue(config, key)
    }

    predicate Noop()
      reads this`config
    {
      Truthy(BlenderConfig("noop"))
    }

    predicate IgnoresFailure()
    {
      Truthy(Fetch(metadata, "ignore_failure"))
    }

    /** `update_config(key, value)`: stores one key and returns the whole hash. */
    method UpdateConfig(key: string, value: Value) returns (updated: map<string, Value>)
      modifies this`config
      ensures BlenderConfig(key) == value
      ensures forall k :: k != key ==> BlenderConfig(k) == old(BlenderConfig(k))
      ensures config == old(config)[key := value] && updated == config
    {
      config := config[key := value];
      updated := config;
    }

    /** `run_job(job)`: `None` when it returns normally, `Some(e)` when it raises `e`. */
    method RunJob(job: Job, run: JobRun) returns (raised: Option<Error>)
      modifies this`events, this`invocations, this`calledAt
      ensures var e := RunJobEffect(job, Noop(), IgnoresFailure(), run);
              && events == old(events) + e.events
              && invocations == old(invocations) + e.invoked
              && calledAt == old(calledAt) + Shift(e.calledAt, |old(events)|)
              && raised == e.raised
    {
      events := events + [JobStarted(job)];
      var failure: Option<Error> := None;
      if !Truthy(BlenderConfig("noop")) {
        invocations := invocations + [job];
        calledAt := calledAt + [|events|];
        failure := run(job);
      }
      match failure {
        case None =>
          events := events + [JobFinished(job)];
          raised := None;
        case Some(err) =>
          events := events + [JobFailed(job, err)];
          raised := if Truthy(Fetch(metadata, "ignore_failure")) then None else Some(err);
      }
    }

    /** `serial_run(jobs)`. */
    method SerialRun(jobs: seq<Job>, run: JobRun) returns (raised: Option<Error>)
      modifies this`events, this`invocations, this`calledAt
      ensures var e := SerialEffect(jobs, Noop(), IgnoresFailure(), run);
              && events == old(events) + e.events
              && invocations == old(invocations) + e.invoked
              && calledAt == old(calledAt) + Shift(e.calledAt, |old(events)|)
              && raised == e.raised
    {
      ghost var noop := Noop();
      ghost var ignoreFailure := IgnoresFailure();
      var i := 0;
      while i < |jobs|
        invariant 0 <= i <= |jobs|
        invariant noop == Noop()
        invariant var e := SerialEffect(jobs[..i], noop, ignoreFailure, run);
                  && events == old(events) + e.events
                  && invocations == old(invocations) + e.invoked
                  && calledAt == old(calledAt) + Shift(e.calledAt, |old(events)|)
                  && e.raised == None
      {
        raised := RunJob(jobs[i], run);
        SerialAdvance(jobs, i, noop, ignoreFailure, run, old(events), old(invocations), old(calledAt));
        i := i + 1;
        if raised.Some? {
          SerialStopsAtRaise(jobs, i, noop, ignoreFailure, run);
          return;
        }
      }
      assert jobs[..i] == jobs;
      raised := None;
    }

    /** `concurrent_run(jobs)`: the thread pool's effect is given by `pool`. */
    method ConcurrentRun(jobs: seq<Job>, pool: Pool) returns (raised: Option<Error>)
      modifies this`events, this`invocations, this`calledAt
      ensures events == old(events) + pool(jobs).events
      ensures invocations == old(invocations) + pool(jobs).invoked
      ensures calledAt == old(calledAt) + Shift(pool(jobs).calledAt, |old(events)|)
      ensures raised == pool(jobs).raised
    {
      var e := pool(jobs);
      calledAt := calledAt + Shift(e.calledAt, |events|);
      events := events + e.events;
      invocations := invocations + e.invoked;
      raised := e.raised;
    }

    /**
     The part of `run` inside `lock do ... end`: the branch on
     `metadata[:concurrency]`, then `run_finished`. The lock is a wrapper that
     runs its body.
     */
    method Locked(jobs: seq<Job>, run: JobRun, pool: Pool) returns (outcome: Outcome)
      modifies this`events, this`invocations, this`calledAt
      ensures var (e, o) := LockedBody(jobs, metadata, Noop(), run, pool);
              && events == old(events) + e.events
              && invocations == old(invocations) + e.invoked
              && calledAt == old(calledAt) + Shift(e.calledAt, |old(events)|)
              && outcome == o
    {
      var concurrent := Concurrent(metadata);
      if concurrent.Err? {
        return Failed(concurrent.error);
      }
      var raised;
      if concurrent.value {
        raised := ConcurrentRun(jobs, pool);
      } else {
        raised := SerialRun(jobs, run);
      }
      if raised.Some? {
        return Failed(raised.value);
      }
      events := events + [RunFinished];
      outcome := Returned(jobs);
    }

    /**
     The first lines of `run`: the strategy falls back to Default, then
     `run_started` and `job_computation_started` are sent.
     */
    method Open() returns (s: Strategy)
      modifies this`strategy, this`events
      ensures s == (if old(strategy).Some? then old(strategy).value else Default)
      ensures strategy == Some(s)
      ensures events == old(events) + [RunStarted, JobComputationStarted(s)]
    {
      if strategy.None? {
        strategy := Some(Default);
      }
      s := strategy.value;
      events := events + [RunStarted];
      events := events + [JobComputationStarted(s)];
    }

    /** `run`. */
    method Run(compute: Compute, run: JobRun, pool: Pool) returns (outcome: Outcome)
      modifies this`strategy, this`events, this`invocations, this`calledAt
      ensures var t := RunSpec(old(strategy), tasks, metadata, Noop(), compute, run, pool);
              && strategy == Some(t.strategy)
              && events == old(events) + t.events
              && invocations == old(invocations) + t.invoked
              && calledAt == old(calledAt) + Shift(t.calledAt, |old(events)|)
              && outcome == t.outcome
    {
      var s := Open();
      var computed := compute(s, tasks);
      if computed.Err? {
        events := events + [RunFailed(computed.error)];
        return Failed(computed.error);
      }
      var jobs := computed.value;
      events := events + [JobComputationFinished(jobs)];
      ghost var opening := [RunStarted, JobComputationStarted(s), JobComputationFinished(jobs)];
      ghost var afterOpening := events;
      assert afterOpening == old(events) + opening;
      ghost var noop := Noop();
      outcome := Locked(jobs, run, pool);
      RunComputed(old(strategy), tasks, metadata, noop, compute, run, pool, s, jobs);
      ghost var body := LockedBody(jobs, metadata, noop, run, pool).0;
      ghost var closing := if outcome.Failed? then [RunFailed(outcome.error)] else [];
      if outcome.Failed? {
        events := events + [RunFailed(outcome.error)];
      }
      assert events == afterOpening + body.events + closing;
      RunLogs(old(events), opening, body, closing);
    }
  }
}
