# Blender orchestrator core, modelled in Dafny

Blender is a remote-command orchestrator written in Ruby. A `Scheduler`
owns a list of tasks and an option hash. Its `run` has a scheduling
strategy split the tasks into jobs. It then runs the jobs, serially or
through a thread pool, under a run lock. Every step is reported to an event
dispatcher, and failures are either tolerated (`ignore_failure`) or
re-raised. A job executes through a driver. The Serf driver sends each task's
command as a Serf query to every host, selecting nodes by name or by tag,
and turns each outcome into an exec output `(exit status, stdout, stderr)`.
The scp task is a task whose command is a `(source, target)` record; upload
tasks may change the source and download tasks the target.

This project models three files:

- `lib/blender/scheduler.rb` becomes `scheduler.dfy` (module `Scheduling`).
  The `Scheduler` class keeps its fields. The dispatcher is represented by
  the ordered log of notifications it was asked to deliver (`events`). The
  calls to `job.run` are recorded in `invocations`. `calledAt` gives each
  call's place among the notifications: how many had been sent before it.
  Each method is proved
  against a specification function: `RunJobEffect`, `SerialEffect`,
  `LockedBody` and `RunSpec`. The lemmas beside them state the run's
  guarantees: serial ordering, each job's run called between its two
  notifications, stop at the first unignored failure, noop, and how a run
  opens and ends.
- `lib/blender/drivers/serf.rb` becomes `serf.dfy` (module `SerfDriver`).
  The case analysis (`exit_status`, `query_opts`, `run_command`) is written
  as functions. `execute` is a nested loop over tasks and hosts. It is
  proved against `ExecEffect`, the effect of the task-major list of
  (task, host) visits. The lemmas about `ExecEffect` hold for any output of
  each command, and `Runner` supplies `run_command`'s outputs.
- `lib/blender/tasks/scp.rb` becomes `scp.dfy` (module `ScpTask`). The task
  classes hold a mutable command record, and the setters are proved to
  change only their own field.

`ruby_values.dfy` (module `RubyValues`) holds the Ruby notions these files
rely on:

- dynamically typed hash values;
- truthiness, where only `nil` and `false` are false;
- `hash[key]` on a hash without a default, and `a || b`;
- the `to_s`/`inspect` forms that appear in messages.

Code outside the three files appears as parameters:

- a strategy's `compute_jobs` is `Compute`;
- a job's `run` is `JobRun`, which returns or raises;
- the effect of `concurrent_run` with its thread pool is `Pool`;
- the Serf agent is `Agent`: whether connecting fails, and what a query
  returns or raises.

Points of the code the model follows:

- `noop` is read from the configuration hash (`blender_config(:noop)`), not
  from the metadata.
- `run_job` tolerates a failure only when the scheduler's own metadata has
  `ignore_failure`. The Serf driver, in contrast, consults each task's
  metadata.
- An unknown `filter_by` mode is not rejected at setup time. It raises when
  a query is built. `run_command` then turns the error into an exec output
  with status -1 and the message as stderr, so `execute` only fails on it
  through the task's failure policy.
- With `filter_by: :tag` the exit status is 0 whatever the number of
  responses, including none.
- The query timeout is the command's timeout in seconds, or 15, multiplied
  by 10^9: the Serf RPC expects nanoseconds.

## Model

| member | source | states |
|---|---|---|
| Scheduling.DefaultMetadata | lib/blender/scheduler.rb:124-131 | the default metadata has exactly the keys ignore_failure, concurrency, handlers and members |
| Scheduling.InitialConfig | lib/blender/scheduler.rb:49-51 | the configuration holds exactly noop and arguments; each is the option's value when it is truthy, and false or [] otherwise |
| Scheduling.ConfigValue | lib/blender/scheduler.rb:115-117 | a stored key reads as its value; a key never stored reads as a new empty hash (the hash's default block) |
| Scheduling.Concurrent | lib/blender/scheduler.rb:67 | the comparison succeeds exactly when concurrency is an integer, selects the concurrent branch exactly when that integer exceeds 1, and otherwise raises carrying the offending value |
| Scheduling.RunJobEffect | lib/blender/scheduler.rb:99-113 | run_job sends job_started then job_failed or job_finished, calls the job's run only without noop and then after job_started and before the second notification, and lets an error escape exactly when run raised, noop is off and ignore_failure is off; the escaping error is the one run raised |
| Scheduling.FirstAbort | lib/blender/scheduler.rb:80-85 | the first job whose error escapes: no job before it aborts, and it does when it is in range |
| Scheduling.BlocksAt | lib/blender/scheduler.rb:82-84 | in a serial log job k's job_started is at position 2k and its terminal notification at 2k+1, so each job ends before the next starts |
| Scheduling.BlocksStartEachOnce | lib/blender/scheduler.rb:82-84 | the job_started notifications of a serial log name every job exactly once, in list order |
| Scheduling.SerialRaised | lib/blender/scheduler.rb:80-85 | a serial run raises the error of the first aborting job, and nothing when no job aborts |
| Scheduling.SerialShape | lib/blender/scheduler.rb:80-85 | a serial run's log is the started/terminal pairs of the jobs up to and including the first aborting job, in order |
| Scheduling.SerialInvokes | lib/blender/scheduler.rb:99-104 | a serial run calls run on exactly the jobs it starts, in order, and on none with noop |
| Scheduling.BlocksAreJobEvents | lib/blender/scheduler.rb:99-113 | a serial run sends job notifications only |
| Scheduling.SerialStep | lib/blender/scheduler.rb:82-84 | loop helper: after jobs that let nothing escape, one more job appends its run_job notifications and calls and decides what escapes |
| Scheduling.SerialCalls | lib/blender/scheduler.rb:82-84 | without noop a serial run sends two notifications per call, and call k is made once 2k + 1 notifications have been sent; every call has its place recorded |
| Scheduling.SerialCallOrder | lib/blender/scheduler.rb:99-113 | in a serial run without noop, the k-th job run is called after that job's job_started (notification 2k) and before its job_finished or job_failed (notification 2k + 1), so after every notification of the jobs before it |
| Scheduling.SerialStopsAtRaise | lib/blender/scheduler.rb:82-84 | once a prefix of the jobs raised, the remaining jobs change nothing |
| Scheduling.NoopRunsNothing | lib/blender/scheduler.rb:102-105 | with noop no job's run is called, nothing is raised, and every job gets job_started immediately followed by job_finished |
| Scheduling.IgnoredFailuresRunAll | lib/blender/scheduler.rb:106-110 | with ignore_failure no error escapes, every job is started once in order, and every failure is still reported by job_failed |
| Scheduling.FirstFailureAborts | lib/blender/scheduler.rb:106-112 | without ignore_failure the first raising job's error escapes, its job_failed is the last notification, and no later job is started or run |
| Scheduling.RunOpening | lib/blender/scheduler.rb:61-65 | a run keeps a set strategy and falls back to Default, then sends run_started, job_computation_started and job_computation_finished with the computed jobs |
| Scheduling.RunComputed | lib/blender/scheduler.rb:60-78 | once the jobs are computed, a run sends the opening three notifications, the locked body's, and run_failed when the body fails; its calls are the body's, placed after the three opening notifications, and its outcome is the body's |
| Scheduling.LockedBodyShape | lib/blender/scheduler.rb:66-74 | the locked body sends job notifications and then run_finished, and returns the jobs it was given |
| Scheduling.RunEnding | lib/blender/scheduler.rb:72-77 | a run that returns ends with run_finished and returns the computed jobs; a run that raises ends with exactly one run_failed carrying the re-raised error; neither occurs earlier |
| Scheduling.DefaultMetadataIsSerial | lib/blender/scheduler.rb:124-131 | with the default metadata the serial branch is taken and failures are not ignored |
| Scheduling.SerialUpToOne | lib/blender/scheduler.rb:67-71 | an integer concurrency selects the serial branch up to 1 and the concurrent branch above |
| Scheduling.IgnoredRunReturns | lib/blender/scheduler.rb:60-78 | a serial run with ignore_failure returns the computed jobs whatever the jobs do |
| Scheduling.Scheduler.constructor | lib/blender/scheduler.rb:45-58 | noop and arguments get their defaults, the documentation handler is registered unless no_doc is truthy, the options without no_doc are merged over the default metadata, no strategy is set, the lock properties have no driver, and nothing has been sent or called |
| Scheduling.Scheduler.BlenderConfig | lib/blender/scheduler.rb:115-117 | reads a stored key, or an empty hash for a key never stored |
| Scheduling.Scheduler.UpdateConfig | lib/blender/scheduler.rb:119-122 | the key then reads back as the value, every other key reads as before, and the whole hash is returned |
| Scheduling.Scheduler.RunJob | lib/blender/scheduler.rb:99-113 | appends exactly run_job's notifications and call, with the call placed right after job_started, and returns what escapes, as RunJobEffect |
| Scheduling.Scheduler.SerialRun | lib/blender/scheduler.rb:80-85 | appends exactly the serial run's notifications, calls and call places and returns what escapes, as SerialEffect |
| Scheduling.Scheduler.ConcurrentRun | lib/blender/scheduler.rb:87-97 | appends the thread pool's notifications, calls and call places and returns what escapes from it |
| Scheduling.Scheduler.Locked | lib/blender/scheduler.rb:66-74 | the branch on concurrency, the chosen run and run_finished, with its calls and call places, as LockedBody |
| Scheduling.Scheduler.Open | lib/blender/scheduler.rb:61-63 | the strategy is kept or set to Default, and run_started then job_computation_started are sent |
| Scheduling.Scheduler.Run | lib/blender/scheduler.rb:60-78 | the new strategy, the notifications, the calls, their places among the notifications and the outcome are exactly those of RunSpec on the old state |
| SerfDriver.FilterBy | lib/blender/drivers/serf.rb:27-29 | the configured filter_by value, or nil when none is configured |
| SerfDriver.DefaultConfig | lib/blender/drivers/serf.rb:101-103 | the defaults gain filter_by :host and keep every other key |
| SerfDriver.ExitStatus | lib/blender/drivers/serf.rb:61-70 | by host the status is 0 exactly when one response came back and -1 otherwise; by tag it is 0; any other mode raises ArgumentError naming the mode |
| SerfDriver.QueryOptsOf | lib/blender/drivers/serf.rb:72-83 | the query carries the command's name and payload, the timeout in nanoseconds, and a filter naming the host as a node or as the value of the configured tag; any other mode raises the same ArgumentError |
| SerfDriver.TimeoutDefault | lib/blender/drivers/serf.rb:73 | a command without a timeout waits 15 s, otherwise its own timeout, in nanoseconds |
| SerfDriver.FilterModesAgree | lib/blender/drivers/serf.rb:61-83 | exit_status and query_opts refuse the same modes with the same error |
| SerfDriver.SerfQuery | lib/blender/drivers/serf.rb:31-47 | a connection failure comes first and is raised; once connected, an unknown mode raises ArgumentError before any query is sent; with a known mode the query built by query_opts is sent and its responses or error are the result |
| SerfDriver.RunCommand | lib/blender/drivers/serf.rb:49-59 | the status is 0 or -1; 0 only when the query ran, the callback returned, the mode is known and, by host, exactly one node answered; stdout is set only with an empty stderr |
| SerfDriver.RunCommandFailures | lib/blender/drivers/serf.rb:49-59 | any error raised by serf_query (connecting, building the options, or the query itself) or by the callback gives status -1, empty stdout and the error's message as stderr |
| SerfDriver.RunCommandSucceeds | lib/blender/drivers/serf.rb:51-55 | a query that ran with a callback that returned gives exit_status's status, the inspected responses and an empty stderr |
| SerfDriver.Row | lib/blender/drivers/serf.rb:88 | one visit per host |
| SerfDriver.RowAt | lib/blender/drivers/serf.rb:88 | visit j of a task's row is that task against host j: the hosts in order |
| SerfDriver.RowMembers | lib/blender/drivers/serf.rb:88 | every visit of a row has that task and a listed host |
| SerfDriver.VisitsAt | lib/blender/drivers/serf.rb:87-88 | the (task i, host j) pair is visit number i * hosts + j: task-major, host-minor |
| SerfDriver.VisitsLength | lib/blender/drivers/serf.rb:87-88 | there are tasks * hosts visits |
| SerfDriver.VisitsPrefix | lib/blender/drivers/serf.rb:87-88 | the visits of the first tasks come first |
| SerfDriver.VisitsThrough | lib/blender/drivers/serf.rb:87-88 | the visits of one more task are those of the earlier tasks followed by that task's row |
| SerfDriver.VisitsMembers | lib/blender/drivers/serf.rb:87-88 | each visit pairs a listed task with a listed host |
| SerfDriver.VisitsCover | lib/blender/drivers/serf.rb:87-88 | each pair of a listed task and a listed host is visited |
| SerfDriver.VisitEffect | lib/blender/drivers/serf.rb:89-94 | one visit sends command_started then command_finished with the command's output, and stops the run exactly when the status is non-zero and the task does not ignore failure, failing with that stderr |
| SerfDriver.FirstStop | lib/blender/drivers/serf.rb:92-94 | the index of the first visit with a non-zero status on a task that does not ignore failure: no earlier visit stops, and that one does when it is in range |
| SerfDriver.BracketedAt | lib/blender/drivers/serf.rb:89-91 | visit k's command_started is at position 2k and its command_finished, carrying its output, at 2k+1 |
| SerfDriver.ExecFailure | lib/blender/drivers/serf.rb:87-96 | execute fails with the stderr of the first visit that stops it, and does not fail when no visit stops |
| SerfDriver.ExecShape | lib/blender/drivers/serf.rb:87-96 | execute sends the bracketed notifications of the visits up to and including the first stop, in order, and of no later visit |
| SerfDriver.FailsIffSomeStop | lib/blender/drivers/serf.rb:92-94 | execute fails exactly when some visit stops it |
| SerfDriver.ExecStep | lib/blender/drivers/serf.rb:88-95 | loop helper: after visits that did not stop the run, one more visit appends its notifications and decides the failure |
| SerfDriver.ExecStopsAtFailure | lib/blender/drivers/serf.rb:92-94 | once some first visits stopped the run, the later visits send nothing and change nothing |
| SerfDriver.ExecAppend | lib/blender/drivers/serf.rb:87-96 | after visits that did not stop the run, the following visits continue the same log and decide the failure |
| SerfDriver.AllIgnoredRunsAll | lib/blender/drivers/serf.rb:92 | when every task ignores failure, execute does not fail and sends the bracketed notifications of every (task, host) pair |
| SerfDriver.AllSucceedRunsAll | lib/blender/drivers/serf.rb:92 | when every command succeeds, execute does not fail and sends the notifications of every pair |
| SerfDriver.UnreachableAgentFails | lib/blender/drivers/serf.rb:49-59 | with an agent that cannot be reached, execute fails with the connection error exactly when there is a host and some task does not ignore failure |
| SerfDriver.Serf.constructor | lib/blender/drivers/serf.rb:25 | the driver holds its configuration and has sent no notification |
| SerfDriver.Serf.Execute | lib/blender/drivers/serf.rb:85-97 | appends exactly the notifications of ExecEffect over the task-major visits with run_command's outputs, raises ExecutionFailed with its failure when there is one, and returns the tasks otherwise |
| SerfDriver.Serf.RunTask | lib/blender/drivers/serf.rb:88-95 | one task against each host in turn: appends the notifications of ExecEffect over the task's row and returns its failure |
| ScpTask.Initial | lib/blender/tasks/scp.rb:25-27 | a new command record has source and target both equal to the name |
| ScpTask.WithSource | lib/blender/tasks/scp.rb:32-34 | from sets the source and keeps the target |
| ScpTask.WithTarget | lib/blender/tasks/scp.rb:38-40 | to sets the target and keeps the source |
| ScpTask.SourceLastWriteWins | lib/blender/tasks/scp.rb:32-34 | of two from calls the last one wins |
| ScpTask.TargetLastWriteWins | lib/blender/tasks/scp.rb:38-40 | of two to calls the last one wins |
| ScpTask.SettersCommute | lib/blender/tasks/scp.rb:32-40 | from and to touch different fields and commute |
| ScpTask.SettersReachAll | lib/blender/tasks/scp.rb:23-40 | any (source, target) is reachable from a new task by one from and one to |
| ScpTask.Command.constructor | lib/blender/tasks/scp.rb:25-27 | the record starts as (name, name) |
| ScpTask.Scp.constructor | lib/blender/tasks/scp.rb:23-28 | the task keeps its name and metadata and holds a fresh record (name, name) |
| ScpTask.ScpUpload.constructor | lib/blender/tasks/scp.rb:31 | an upload task starts like any scp task |
| ScpTask.ScpUpload.From | lib/blender/tasks/scp.rb:32-34 | the source becomes the argument and the target is unchanged |
| ScpTask.ScpDownload.constructor | lib/blender/tasks/scp.rb:37 | a download task starts like any scp task |
| ScpTask.ScpDownload.To | lib/blender/tasks/scp.rb:38-40 | the target becomes the argument and the source is unchanged |

## Left out

- Scheduling.Scheduler.ConcurrentRun: the thread pool is not modelled. Its effect (notifications, calls, what escapes) is a parameter, so nothing is proved about per-job ordering or the pool draining under concurrency.
- Scheduling.LockedBodyShape and Scheduling.RunEnding: these take as a premise that the thread pool sends job notifications only.
- The run lock (`include Lock`, `lock do ... end`) is a wrapper that runs its body. Acquiring and releasing it, and the errors of an external lock driver, are not modelled.
- `compute_jobs` of the Default, PerHost and PerTask strategies is not part of this model. It is a parameter that returns jobs or raises.
- Logging (`Log.debug`, `Log.warn`) and standard output (`stdout.puts` of each Serf event) are left out.
- The dispatcher is the notification log. Handlers, and errors raised by a handler while a notification is delivered, are left out. The documentation handler is recorded as registered or not.
- `SchedulerDSL` and the `thread_safe` containers are not part of this model. Their thread-safety plays no role in the serial path.
- `options.delete(:no_doc)` also removes the key from the caller's hash. The model removes it from the metadata only.
- Scheduling.Scheduler.UpdateConfig: Ruby returns the live `@config` hash, so a caller that changes the returned hash changes the scheduler's configuration. The model returns a snapshot value, and that aliasing is not captured.
- Integers are unbounded and no value is a Float. A Float concurrency or timeout is not modelled.
- Only `StandardError` is rescued in the source. Exceptions outside it are not modelled.
- `inspect` shows strings between quotes without Ruby's escaping.
- ScpTask.Scp.constructor: the base task's constructor is not part of this model. The name and the metadata are stored as given, without any defaults a base task might merge in.
- SerfDriver.Serf.constructor: the base driver's constructor is not part of this model. The driver receives its final configuration hash, of which `DefaultConfig` gives the defaults.
- The Serf connection parameters (host, port, authkey) only reach the agent. The `Agent` parameter stands for connecting and querying.
- A command's `process` callback is represented only by whether it raises, and with which message.
- `lib/blender/discoveries/chef.rb` is not part of this model.
- ScpTask.ScpUpload.From and ScpTask.ScpDownload.To: the value Ruby returns from the assignment (the argument) is not modelled.
- `ScpUpload` and `ScpDownload` are subclasses of `Scp` in the source. Here each holds an `Scp`.
