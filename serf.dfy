/**
 The Serf driver: it runs each task's command as a Serf query against each
 host, either by node name (`filter_by: :host`) or by tag
 (`filter_by: :tag`), turns every outcome into an exec output, and stops
 at the first failure that the task does not tolerate.

 The Serf agent is reached over RPC; here it is given as an `Agent`:
 whether connecting fails, and what a query returns or raises. Writing the
 responses to standard output is left out.
 */
module SerfDriver {
  import opened RubyValues

  /** One response event of a Serf query, as Ruby's `inspect` shows it. */
  type Response = string

  /** The user callback `command.process`: absent, returning, or raising with a message. */
  datatype Process = NoProcess | Returns | Raises(message: string)

  /** A Serf command: the query name, its payload, an optional timeout in seconds and the callback. */
  datatype Command = Command(query: string, payload: string, timeout: Option<int>, process: Process)

  datatype Task = Task(name: string, command: Command, metadata: map<string, Value>)

  datatype ExecOutput = ExecOutput(exitStatus: int, stdout: string, stderr: string)

  datatype Error = ArgumentError(message: string) | ExecutionFailed(message: string)

  /** The filter of a query: a list of node names, or the one-entry tag hash `{tag => host}`. */
  datatype Filter = FilterNodes(nodes: seq<string>) | FilterTags(tag: Value, host: string)

  /** The options hash of a query: `Timeout` in nanoseconds and the filter. */
  datatype QueryOpts = QueryOpts(timeout: int, filter: Filter)

  /** The three arguments `conn.query` is called with. */
  datatype Query = Query(name: string, payload: string, opts: QueryOpts)

  /** The Serf agent: whether connecting to it fails, and what a query returns or raises. */
  datatype Agent = Agent(connectFailure: Option<string>, answer: Query -> Result<seq<Response>, string>)

  datatype CommandEvent =
    | CommandStarted(command: Command)
    | CommandFinished(command: Command, output: ExecOutput)

  /** A task paired with a host: one command to run. */
  datatype Visit = Visit(task: Task, host: string)

  /** Seconds a query waits when the command sets no timeout. */
  const DefaultTimeout: int := 15

  const NanosPerSecond: int := 1_000_000_000

  /** `filter_by`: the configured value, nil when there is none. */
  function FilterBy(config: map<string, Value>): (v: Value)
    ensures "filter_by" in config ==> v == config["filter_by"]
    ensures "filter_by" !in config ==> v == Nil
  {
    Fetch(config, "filter_by")
  }

  predicate ByHost(config: map<string, Value>) {
    FilterBy(config) == Sym("host")
  }

  predicate ByTag(config: map<string, Value>) {
    FilterBy(config) == Sym("tag")
  }

  /** The `ArgumentError` raised for any other `filter_by` value. */
  function UnknownFilter(config: map<string, Value>): Error {
    ArgumentError("Unknown filter_by option: " + Show(FilterBy(config)))
  }

  /** `default_config`: the base driver's defaults with `filter_by` set to `:host`. */
  function DefaultConfig(base: map<string, Value>): (c: map<string, Value>)
    ensures ByHost(c)
    ensures c.Keys == base.Keys + {"filter_by"}
    ensures forall k :: k in base && k != "filter_by" ==> c[k] == base[k]
  {
    base["filter_by" := Sym("host")]
  }

  /**
   `exit_status(responses)`: by host, success exactly when one node
   answered; by tag, always success; any other mode raises.
   */
  function ExitStatus(config: map<string, Value>, responses: seq<Response>): (r: Result<int, Error>)
    ensures r.Ok? <==> ByHost(config) || ByTag(config)
    ensures r.Err? ==> r.error == UnknownFilter(config)
    ensures r.Ok? ==> (r.value == 0 || r.value == -1)
    ensures ByHost(config) ==> (r == Ok(0) <==> |responses| == 1)
    ensures ByTag(config) ==> r == Ok(0)
  {
    if ByHost(config) then Ok(if |responses| == 1 then 0 else -1)
    else if ByTag(config) then Ok(0)
    else Err(UnknownFilter(config))
  }

  /** The query's `Timeout`: the command's timeout, 15 when it has none, in nanoseconds. */
  function TimeoutNanos(command: Command): int {
    (if command.timeout.Some? then command.timeout.value else DefaultTimeout) * NanosPerSecond
  }

  /**
   `query_opts(command, host)`: the query name, the payload, and options
   holding the timeout and a filter that names the host, as a node or as the
   value of the configured tag.
   */
  function QueryOptsOf(config: map<string, Value>, command: Command, host: string): (r: Result<Query, Error>)
    ensures r.Ok? <==> ByHost(config) || ByTag(config)
    ensures r.Err? ==> r.error == UnknownFilter(config)
    ensures r.Ok? ==> r.value.name == command.query && r.value.payload == command.payload
    ensures r.Ok? ==> r.value.opts.timeout == TimeoutNanos(command)
    ensures ByHost(config) ==> r.Ok? && r.value.opts.filter == FilterNodes([host])
    ensures ByTag(config) ==> r.Ok? && r.value.opts.filter == FilterTags(Fetch(config, "filter_tag"), host)
  {
    var timeout := TimeoutNanos(command);
    if ByHost(config) then Ok(Query(command.query, command.payload, QueryOpts(timeout, FilterNodes([host]))))
    else if ByTag(config) then
      Ok(Query(command.query, command.payload, QueryOpts(timeout, FilterTags(Fetch(config, "filter_tag"), host))))
    else Err(UnknownFilter(config))
  }

  /** A command without a timeout waits 15 seconds; one with a timeout of t seconds waits t seconds. */
  lemma TimeoutDefault(command: Command)
    ensures command.timeout.None? ==> TimeoutNanos(command) == 15_000_000_000
    ensures command.timeout.Some? ==> TimeoutNanos(command) == command.timeout.value * 1_000_000_000
  {
  }

  /** `exit_status` and `query_opts` accept and refuse the same modes, with the same error. */
  lemma FilterModesAgree(config: map<string, Value>, command: Command, host: string, responses: seq<Response>)
    ensures QueryOptsOf(config, command, host).Err? <==> ExitStatus(config, responses).Err?
    ensures QueryOptsOf(config, command, host).Err? ==>
              QueryOptsOf(config, command, host).error == ExitStatus(config, responses).error
  {
  }

  /**
   `serf_query(command, host)`: connect, then build the query options (which
   may raise), then run the query and collect its responses.
   */
  function SerfQuery(config: map<string, Value>, command: Command, host: string, agent: Agent)
    : (r: Result<seq<Response>, string>)
    ensures agent.connectFailure.Some? ==> r == Err(agent.connectFailure.value)
    ensures agent.connectFailure.None? && !(ByHost(config) || ByTag(config)) ==>
              r == Err(UnknownFilter(config).message)
    ensures agent.connectFailure.None? && (ByHost(config) || ByTag(config)) ==>
              && QueryOptsOf(config, command, host).Ok?
              && r == agent.answer(QueryOptsOf(config, command, host).value)
  {
    match agent.connectFailure
    case Some(message) => Err(message)
    case None =>
      match QueryOptsOf(config, command, host)
      case Err(e) => Err(e.message)
      case Ok(query) => agent.answer(query)
  }

  /** `responses.inspect`. */
  function InspectResponses(responses: seq<Response>): string {
    "[" + JoinResponses(responses) + "]"
  }

  function JoinResponses(responses: seq<Response>): string {
    if responses == [] then ""
    else if |responses| == 1 then responses[0]
    else responses[0] + ", " + JoinResponses(responses[1..])
  }

  /**
   `run_command(command, host)`: never raises. Status 0 means the query ran,
   the callback returned, the mode is known and (by host) exactly one node
   answered; a failure anywhere gives status -1 with the message as stderr.
   */
  function RunCommand(config: map<string, Value>, command: Command, host: string, agent: Agent): (out: ExecOutput)
    ensures out.exitStatus == 0 || out.exitStatus == -1
    ensures out.exitStatus == 0 ==>
              && out.stderr == ""
              && (ByHost(config) || ByTag(config))
              && !command.process.Raises?
              && SerfQuery(config, command, host, agent).Ok?
              && (ByHost(config) ==> |SerfQuery(config, command, host, agent).value| == 1)
    ensures out.stdout != "" ==> out.stderr == ""
  {
    match SerfQuery(config, command, host, agent)
    case Err(message) => ExecOutput(-1, "", message)
    case Ok(responses) =>
      if command.process.Raises? then ExecOutput(-1, "", command.process.message)
      else
        match ExitStatus(config, responses)
        case Err(e) => ExecOutput(-1, "", e.message)
        case Ok(status) => ExecOutput(status, InspectResponses(responses), "")
  }

  /** Any failure on the way becomes status -1, empty stdout and the error's message as stderr. */
  lemma RunCommandFailures(config: map<string, Value>, command: Command, host: string, agent: Agent)
    ensures SerfQuery(config, command, host, agent).Err? ==>
              RunCommand(config, command, host, agent)
              == ExecOutput(-1, "", SerfQuery(config, command, host, agent).error)
    ensures SerfQuery(config, command, host, agent).Ok? && command.process.Raises? ==>
              RunCommand(config, command, host, agent) == ExecOutput(-1, "", command.process.message)
  {
  }

  /**
   A query that ran and a callback that returned give the status of
   `exit_status`, the inspected responses as stdout, and an empty stderr.
   */
  lemma RunCommandSucceeds(config: map<string, Value>, command: Command, host: string, agent: Agent,
                           responses: seq<Response>)
    requires SerfQuery(config, command, host, agent) == Ok(responses)
    requires !command.process.Raises?
    ensures ExitStatus(config, responses).Ok?
    ensures RunCommand(config, command, host, agent)
            == ExecOutput(ExitStatus(config, responses).value, InspectResponses(responses), "")
  {
  }

  /** One task against every host, in host order. */
  function Row(task: Task, hosts: seq<string>): (r: seq<Visit>)
    ensures |r| == |hosts|
    decreases |hosts|
  {
    if hosts == [] then [] else Row(task, hosts[..|hosts| - 1]) + [Visit(task, hosts[|hosts| - 1])]
  }

  /** Every visit of a task's row is of that task, against a listed host. */
  lemma {:induction false} RowMembers(task: Task, hosts: seq<string>)
    ensures forall v :: v in Row(task, hosts) ==> v.task == task && v.host in hosts
    decreases |hosts|
  {
    if hosts != [] {
      RowMembers(task, hosts[..|hosts| - 1]);
      assert forall h :: h in hosts[..|hosts| - 1] ==> h in hosts;
    }
  }

  /** The `j`-th visit of a task's row is against the `j`-th host. */
  lemma {:induction false} RowAt(task: Task, hosts: seq<string>, j: nat)
    requires j < |hosts|
    ensures Row(task, hosts)[j] == Visit(task, hosts[j])
    decreases |hosts|
  {
    if j < |hosts| - 1 {
      RowAt(task, hosts[..|hosts| - 1], j);
    }
  }

  /** The (task, host) pairs `execute` visits: task-major, host-minor. */
  function Visits(tasks: seq<Task>, hosts: seq<string>): seq<Visit>
    decreases |tasks|
  {
    if tasks == [] then []
    else Visits(tasks[..|tasks| - 1], hosts) + Row(tasks[|tasks| - 1], hosts)
  }

  /** Pair `(i, j)` is visit number `i * |hosts| + j`: every task in turn, against every host in turn. */
  lemma {:induction false} VisitsAt(tasks: seq<Task>, hosts: seq<string>, i: nat, j: nat)
    requires i < |tasks| && j < |hosts|
    ensures |Visits(tasks, hosts)| == |tasks| * |hosts|
    ensures i * |hosts| + j < |Visits(tasks, hosts)|
    ensures Visits(tasks, hosts)[i * |hosts| + j] == Visit(tasks[i], hosts[j])
    decreases |tasks|
  {
    var init := tasks[..|tasks| - 1];
    var last := tasks[|tasks| - 1];
    var m := |hosts|;
    VisitsLength(tasks, hosts);
    VisitsLength(init, hosts);
    var front := Visits(init, hosts);
    assert Visits(tasks, hosts) == front + Row(last, hosts);
    var k := i * m + j;
    IndexBelow(i, j, |tasks|, m);
    if i < |init| {
      VisitsAt(init, hosts, i, j);
      assert Visits(tasks, hosts)[k] == front[k];
    } else {
      assert i == |init|;
      assert k == |front| + j;
      RowAt(last, hosts, j);
      assert Visits(tasks, hosts)[k] == Row(last, hosts)[j];
    }
  }

  /** Position `i * m + j` of an `n` by `m` grid lies inside it. */
  lemma IndexBelow(i: nat, j: nat, n: nat, m: nat)
    requires i < n && j < m
    ensures i * m + j < n * m
  {
    assert i * m + m == (i + 1) * m <= n * m;
  }

  lemma {:induction false} VisitsLength(tasks: seq<Task>, hosts: seq<string>)
    ensures |Visits(tasks, hosts)| == |tasks| * |hosts|
    decreases |tasks|
  {
    if tasks != [] {
      VisitsLength(tasks[..|tasks| - 1], hosts);
      assert |tasks| * |hosts| == (|tasks| - 1) * |hosts| + |hosts|;
    }
  }

  /** The visits of the first `i` tasks come first among the visits of all of them. */
  lemma {:induction false} VisitsPrefix(tasks: seq<Task>, hosts: seq<string>, i: nat)
    requires i <= |tasks|
    ensures Visits(tasks[..i], hosts) <= Visits(tasks, hosts)
    decreases |tasks|
  {
    if i == |tasks| {
      assert tasks[..i] == tasks;
    } else {
      var init := tasks[..|tasks| - 1];
      assert init[..i] == tasks[..i];
      VisitsPrefix(init, hosts, i);
    }
  }

  /** Every visit pairs a task of the list with a host of the list. */
  lemma {:induction false} VisitsMembers(tasks: seq<Task>, hosts: seq<string>)
    ensures forall v :: v in Visits(tasks, hosts) ==> v.task in tasks && v.host in hosts
    decreases |tasks|
  {
    if tasks != [] {
      var init := tasks[..|tasks| - 1];
      VisitsMembers(init, hosts);
      RowMembers(tasks[|tasks| - 1], hosts);
      assert forall t :: t in init ==> t in tasks;
    }
  }

  /** The failure policy of `execute`: a non-zero status on a task that does not ignore failure. */
  predicate FailsRun(task: Task, output: ExecOutput) {
    output.exitStatus != 0 && !Truthy(Fetch(task.metadata, "ignore_failure"))
  }

  /** The outputs of the visits' commands: `run_command` against the agent. */
  function Runner(config: map<string, Value>, agent: Agent): Visit -> ExecOutput {
    (v: Visit) => RunCommand(config, v.task.command, v.host, agent)
  }

  /** Whether a visit stops `execute`, given the outputs of the commands. */
  predicate Stops(out: Visit -> ExecOutput, v: Visit) {
    FailsRun(v.task, out(v))
  }

  /** The notifications sent so far, and the stderr `execute` raises with once a visit stops it. */
  datatype Progress = Progress(events: seq<CommandEvent>, failure: Option<string>)

  /** One visit: `command_started`, `command_finished` with its output, and the failure when it stops the run. */
  function VisitEffect(out: Visit -> ExecOutput, v: Visit): (p: Progress)
    ensures p.events == [CommandStarted(v.task.command), CommandFinished(v.task.command, out(v))]
    ensures p.failure.Some? <==> Stops(out, v)
    ensures p.failure.Some? ==> p.failure.value == out(v).stderr
  {
    var o := out(v);
    var failure := if FailsRun(v.task, o) then Some(o.stderr) else None;
    Progress([CommandStarted(v.task.command), CommandFinished(v.task.command, o)], failure)
  }

  /** The visits of `execute` in order, leaving off at the first that stops the run. */
  function ExecEffect(out: Visit -> ExecOutput, visits: seq<Visit>): Progress
    decreases |visits|
  {
    if visits == [] then Progress([], None)
    else
      var before := ExecEffect(out, visits[..|visits| - 1]);
      if before.failure.Some? then before
      else
        var step := VisitEffect(out, visits[|visits| - 1]);
        Progress(before.events + step.events, step.failure)
  }

  /** The index of the first visit that stops `execute`, or the number of visits when none does. */
  function FirstStop(out: Visit -> ExecOutput, visits: seq<Visit>): (n: nat)
    ensures n <= |visits|
    ensures forall k :: 0 <= k < n ==> !Stops(out, visits[k])
    ensures n < |visits| ==> Stops(out, visits[n])
    decreases |visits|
  {
    if visits == [] then 0
    else
      var n := FirstStop(out, visits[..|visits| - 1]);
      if n < |visits| - 1 then n
      else if Stops(out, visits[|visits| - 1]) then |visits| - 1
      else |visits|
  }

  /** How many visits `execute` makes: up to and including the first that stops it. */
  function VisitCount(out: Visit -> ExecOutput, visits: seq<Visit>): (n: nat)
    ensures n <= |visits|
  {
    var f := FirstStop(out, visits);
    if f < |visits| then f + 1 else |visits|
  }

  /** Each visit's `command_started`, then its `command_finished` with the visit's output. */
  function Bracketed(out: Visit -> ExecOutput, visits: seq<Visit>): seq<CommandEvent>
    decreases |visits|
  {
    if visits == [] then []
    else
      var v := visits[|visits| - 1];
      Bracketed(out, visits[..|visits| - 1])
        + [CommandStarted(v.task.command), CommandFinished(v.task.command, out(v))]
  }

  /** Visit k's two notifications sit at positions 2k and 2k+1: each command is bracketed. */
  lemma {:induction false} BracketedAt(out: Visit -> ExecOutput, visits: seq<Visit>, k: nat)
    requires k < |visits|
    ensures |Bracketed(out, visits)| == 2 * |visits|
    ensures Bracketed(out, visits)[2 * k] == CommandStarted(visits[k].task.command)
    ensures Bracketed(out, visits)[2 * k + 1]
            == CommandFinished(visits[k].task.command, out(visits[k]))
    decreases |visits|
  {
    var init := visits[..|visits| - 1];
    if k < |init| {
      BracketedAt(out, init, k);
    } else if init != [] {
      BracketedAt(out, init, 0);
    }
  }

  /** `execute` fails with the stderr of the first visit that stops it, and does not fail when none does. */
  lemma {:induction false} ExecFailure(out: Visit -> ExecOutput, visits: seq<Visit>)
    ensures var f := FirstStop(out, visits);
            ExecEffect(out, visits).failure
            == if f < |visits| then Some(out(visits[f]).stderr) else None
    decreases |visits|
  {
    if visits != [] {
      var init := visits[..|visits| - 1];
      ExecFailure(out, init);
      assert forall k :: 0 <= k < |init| ==> init[k] == visits[k];
    }
  }

  /**
   The notifications of `execute`: the visits up to and including the first
   that stops it, in order, each bracketed by its two notifications.
   */
  lemma {:induction false} ExecShape(out: Visit -> ExecOutput, visits: seq<Visit>)
    ensures ExecEffect(out, visits).events
            == Bracketed(out, visits[..VisitCount(out, visits)])
    decreases |visits|
  {
    if visits != [] {
      var init := visits[..|visits| - 1];
      var fi := FirstStop(out, init);
      ExecShape(out, init);
      ExecFailure(out, init);
      if fi < |init| {
        assert ExecEffect(out, visits) == ExecEffect(out, init);
        assert VisitCount(out, visits) == fi + 1;
        assert init[..fi + 1] == visits[..fi + 1];
      } else {
        var last := visits[|visits| - 1];
        assert ExecEffect(out, visits).events
               == ExecEffect(out, init).events + VisitEffect(out, last).events;
        assert VisitCount(out, visits) == |visits|;
        assert init[..|init|] == init;
        assert visits[..|visits|] == visits;
      }
    }
  }

  /** One more visit after visits that did not stop `execute`. */
  lemma ExecStep(out: Visit -> ExecOutput, visits: seq<Visit>, j: nat)
    requires j < |visits|
    requires ExecEffect(out, visits[..j]).failure.None?
    ensures var step := VisitEffect(out, visits[j]);
            ExecEffect(out, visits[..j + 1])
            == Progress(ExecEffect(out, visits[..j]).events + step.events, step.failure)
  {
    assert visits[..j + 1][..j] == visits[..j];
  }

  /** Once some first visits have stopped `execute`, the later ones change nothing. */
  lemma {:induction false} ExecStopsAtFailure(out: Visit -> ExecOutput, visits: seq<Visit>, i: nat)
    requires i <= |visits|
    requires ExecEffect(out, visits[..i]).failure.Some?
    ensures ExecEffect(out, visits) == ExecEffect(out, visits[..i])
    decreases |visits| - i
  {
    if i < |visits| {
      var init := visits[..|visits| - 1];
      assert init[..i] == visits[..i];
      ExecStopsAtFailure(out, init, i);
    } else {
      assert visits[..i] == visits;
    }
  }

  /** After visits that did not stop `execute`, the rest of the visits continue the same log. */
  lemma {:induction false} ExecAppend(out: Visit -> ExecOutput, first: seq<Visit>, rest: seq<Visit>)
    requires ExecEffect(out, first).failure.None?
    ensures ExecEffect(out, first + rest)
            == Progress(ExecEffect(out, first).events + ExecEffect(out, rest).events,
                        ExecEffect(out, rest).failure)
    decreases |rest|
  {
    if rest == [] {
      assert first + rest == first;
    } else {
      var init := rest[..|rest| - 1];
      assert (first + rest)[..|first + rest| - 1] == first + init;
      ExecAppend(out, first, init);
      var before := ExecEffect(out, init);
      if before.failure.None? {
        ConcatAssoc(ExecEffect(out, first).events, before.events,
                    VisitEffect(out, rest[|rest| - 1]).events);
      }
    }
  }

  /** When every task ignores failure, `execute` visits every (task, host) pair and does not fail. */
  lemma AllIgnoredRunsAll(out: Visit -> ExecOutput, tasks: seq<Task>, hosts: seq<string>)
    requires forall t :: t in tasks ==> Truthy(Fetch(t.metadata, "ignore_failure"))
    ensures var visits := Visits(tasks, hosts);
            && ExecEffect(out, visits).failure.None?
            && ExecEffect(out, visits).events == Bracketed(out, visits)
  {
    var visits := Visits(tasks, hosts);
    VisitsMembers(tasks, hosts);
    ExecFailure(out, visits);
    ExecShape(out, visits);
    assert visits[..|visits|] == visits;
  }

  /** With every command succeeding, `execute` visits every pair and does not fail, whatever the tasks' policy. */
  lemma AllSucceedRunsAll(out: Visit -> ExecOutput, tasks: seq<Task>, hosts: seq<string>)
    requires forall t, h :: t in tasks && h in hosts ==> out(Visit(t, h)).exitStatus == 0
    ensures var visits := Visits(tasks, hosts);
            && ExecEffect(out, visits).failure.None?
            && ExecEffect(out, visits).events == Bracketed(out, visits)
  {
    var visits := Visits(tasks, hosts);
    VisitsMembers(tasks, hosts);
    ExecFailure(out, visits);
    ExecShape(out, visits);
    assert visits[..|visits|] == visits;
  }

  /** The visits of the first `i + 1` tasks are those of the first `i` and then task `i`'s row, and open the run. */
  lemma VisitsThrough(tasks: seq<Task>, hosts: seq<string>, i: nat)
    requires i < |tasks|
    ensures Visits(tasks[..i + 1], hosts) == Visits(tasks[..i], hosts) + Row(tasks[i], hosts)
    ensures Visits(tasks[..i + 1], hosts) <= Visits(tasks, hosts)
  {
    assert tasks[..i + 1][..i] == tasks[..i];
    VisitsPrefix(tasks, hosts, i + 1);
  }

  /** Every pair of a listed task and a listed host is visited. */
  lemma {:induction false} VisitsCover(tasks: seq<Task>, hosts: seq<string>)
    ensures forall t, h :: t in tasks && h in hosts ==> Visit(t, h) in Visits(tasks, hosts)
    decreases |tasks|
  {
    if tasks != [] {
      var init := tasks[..|tasks| - 1];
      var last := tasks[|tasks| - 1];
      VisitsCover(init, hosts);
      forall h | h in hosts
        ensures Visit(last, h) in Row(last, hosts)
      {
        var j :| 0 <= j < |hosts| && hosts[j] == h;
        RowAt(last, hosts, j);
      }
      forall t | t in tasks
        ensures t in init || t == last
      {
        var i :| 0 <= i < |tasks| && tasks[i] == t;
        if i < |init| {
          assert init[i] == t;
        }
      }
    }
  }

  /** `execute` raises exactly when some visit stops it. */
  lemma FailsIffSomeStop(out: Visit -> ExecOutput, visits: seq<Visit>)
    ensures ExecEffect(out, visits).failure.Some? <==> exists v :: v in visits && Stops(out, v)
  {
    var f := FirstStop(out, visits);
    ExecFailure(out, visits);
    if f < |visits| {
      assert visits[f] in visits;
    }
  }

  /**
   An agent that cannot be reached fails every command with the connection
   error, so `execute` raises that error exactly when there is a host to
   visit and some task does not ignore failure.
   */
  lemma UnreachableAgentFails(config: map<string, Value>, agent: Agent, tasks: seq<Task>, hosts: seq<string>)
    requires agent.connectFailure.Some?
    ensures ExecEffect(Runner(config, agent), Visits(tasks, hosts)).failure
            == if hosts != [] && exists t :: t in tasks && !Truthy(Fetch(t.metadata, "ignore_failure"))
               then Some(agent.connectFailure.value) else None
  {
    var out := Runner(config, agent);
    var visits := Visits(tasks, hosts);
    forall v
      ensures out(v) == ExecOutput(-1, "", agent.connectFailure.value)
    {
      RunCommandFailures(config, v.task.command, v.host, agent);
    }
    ExecFailure(out, visits);
    FailsIffSomeStop(out, visits);
    VisitsMembers(tasks, hosts);
    VisitsCover(tasks, hosts);
    if hosts != [] && exists t :: t in tasks && !Truthy(Fetch(t.metadata, "ignore_failure")) {
      var t :| t in tasks && !Truthy(Fetch(t.metadata, "ignore_failure"));
      assert Stops(out, Visit(t, hosts[0]));
    }
  }

  class Serf {
    /** The driver's configuration hash, as the base driver builds it. */
    const config: map<string, Value>
    /** The notifications sent to the dispatcher, in order. */
    var events: seq<CommandEvent>

    constructor (config: map<string, Value>)
      ensures this.config == config && events == []
    {
      this.config := config;
      events := [];
    }

    /**
     `execute(tasks, hosts)`: every task against every host, each command
     bracketed by `command_started` and `command_finished`; the first visit
     with a non-zero status whose task does not ignore failure raises
     `ExecutionFailed` with that command's stderr, and nothing after it runs.
     */
    method Execute(tasks: seq<Task>, hosts: seq<string>, agent: Agent) returns (r: Result<seq<Task>, Error>)
      modifies this`events
      ensures var e := ExecEffect(Runner(config, agent), Visits(tasks, hosts));
              && events == old(events) + e.events
              && r == if e.failure.Some? then Err(ExecutionFailed(e.failure.value)) else Ok(tasks)
    {
      var i := 0;
      while i < |tasks|
        invariant 0 <= i <= |tasks|
        invariant var e := ExecEffect(Runner(config, agent), Visits(tasks[..i], hosts));
                  events == old(events) + e.events && e.failure.None?
      {
        ghost var done := Visits(tasks[..i], hosts);
        ghost var row := Row(tasks[i], hosts);
        VisitsThrough(tasks, hosts, i);
        var failure := RunTask(tasks[i], hosts, agent);
        ExecAppend(Runner(config, agent), done, row);
        ConcatAssoc(old(events), ExecEffect(Runner(config, agent), done).events, ExecEffect(Runner(config, agent), row).events);
        if failure.Some? {
          ghost var visits := Visits(tasks, hosts);
          assert visits[..|done + row|] == done + row;
          ExecStopsAtFailure(Runner(config, agent), visits, |done + row|);
          return Err(ExecutionFailed(failure.value));
        }
        i := i + 1;
      }
      assert tasks[..i] == tasks;
      r := Ok(tasks);
    }

    /**
     One task of `execute` against every host in turn, each command
     bracketed by its two notifications; returns the stderr of the first
     command that stops the run, if any, and runs nothing after it.
     */
    method RunTask(task: Task, hosts: seq<string>, agent: Agent) returns (failure: Option<string>)
      modifies this`events
      ensures var e := ExecEffect(Runner(config, agent), Row(task, hosts));
              events == old(events) + e.events && failure == e.failure
    {
      ghost var row := Row(task, hosts);
      var j := 0;
      while j < |hosts|
        invariant 0 <= j <= |hosts|
        invariant var e := ExecEffect(Runner(config, agent), row[..j]);
                  events == old(events) + e.events && e.failure.None?
      {
        var host := hosts[j];
        ghost var prior := events;
        events := events + [CommandStarted(task.command)];
        var cmd := RunCommand(config, task.command, host, agent);
        events := events + [CommandFinished(task.command, cmd)];
        RowAt(task, hosts, j);
        ExecStep(Runner(config, agent), row, j);
        ghost var step := VisitEffect(Runner(config, agent), row[j]);
        assert events == prior + step.events;
        ConcatAssoc(old(events), ExecEffect(Runner(config, agent), row[..j]).events, step.events);
        if FailsRun(task, cmd) {
          ExecStopsAtFailure(Runner(config, agent), row, j + 1);
          return Some(cmd.stderr);
        }
        j := j + 1;
      }
      assert row[..j] == row;
      failure := None;
    }
  }
}
