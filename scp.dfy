/**
 The scp task: its command is a two-field record, `source` and `target`,
 both set to the task's name when the task is built. An upload task may
 then change only the source (`from`), a download task only the target
 (`to`).
 */
module ScpTask {
  import opened RubyValues

  /** The values of the command record's two fields. */
  datatype Paths = Paths(source: string, target: string)

  /** The record a new task starts with: both fields are the task's name. */
  function Initial(name: string): (p: Paths)
    ensures p.source == name && p.target == name
  {
    Paths(name, name)
  }

  /** `from(source)` on the record: the source is replaced, the target kept. */
  function WithSource(p: Paths, source: string): (r: Paths)
    ensures r.source == source
    ensures r.target == p.target
  {
    p.(source := source)
  }

  /** `to(target)` on the record: the target is replaced, the source kept. */
  function WithTarget(p: Paths, target: string): (r: Paths)
    ensures r.target == target
    ensures r.source == p.source
  {
    p.(target := target)
  }

  /** Repeated `from` calls: the last one wins. */
  lemma SourceLastWriteWins(p: Paths, first: string, second: string)
    ensures WithSource(WithSource(p, first), second) == WithSource(p, second)
  {
  }

  /** Repeated `to` calls: the last one wins. */
  lemma TargetLastWriteWins(p: Paths, first: string, second: string)
    ensures WithTarget(WithTarget(p, first), second) == WithTarget(p, second)
  {
  }

  /** Setting one field never disturbs the other, so the two setters commute. */
  lemma SettersCommute(p: Paths, source: string, target: string)
    ensures WithSource(WithTarget(p, target), source) == WithTarget(WithSource(p, source), target)
  {
  }

  /** Any record is reached from a new task's record by one `from` and one `to`. */
  lemma SettersReachAll(name: string, p: Paths)
    ensures WithTarget(WithSource(Initial(name), p.source), p.target) == p
  {
  }

  /** The anonymous `Struct.new(:source, :target)` instance a task holds. */
  class Command {
    var source: string
    var target: string

    function Fields(): Paths
      reads this
    {
      Paths(source, target)
    }

    constructor (name: string)
      ensures Fields() == Initial(name)
    {
      target := name;
      source := name;
    }
  }

  /** `Scp`: a task whose command record starts as (name, name). */
  class Scp {
    const name: string
    const metadata: map<string, Value>
    const command: Command

    constructor (name: string, metadata: map<string, Value>)
      ensures this.name == name && this.metadata == metadata
      ensures fresh(command)
      ensures command.Fields() == Initial(name)
    {
      this.name := name;
      this.metadata := metadata;
      command := new Command(name);
    }
  }

  /** `ScpUpload`: an scp task whose source can be changed. */
  class ScpUpload {
    const task: Scp

    constructor (name: string, metadata: map<string, Value>)
      ensures task.name == name && task.metadata == metadata
      ensures fresh(task) && fresh(task.command)
      ensures task.command.Fields() == Initial(name)
    {
      task := new Scp(name, metadata);
    }

    /** `from(source)`: the source becomes `source`; the target is left as it was. */
    method From(source: string)
      modifies task.command`source
      ensures task.command.Fields() == WithSource(old(task.command.Fields()), source)
    {
      task.command.source := source;
    }
  }

  /** `ScpDownload`: an scp task whose target can be changed. */
  class ScpDownload {
    const task: Scp

    constructor (name: string, metadata: map<string, Value>)
      ensures task.name == name && task.metadata == metadata
      ensures fresh(task) && fresh(task.command)
      ensures task.command.Fields() == Initial(name)
    {
      task := new Scp(name, metadata);
    }

    /** `to(target)`: the target becomes `target`; the source is left as it was. */
    method To(target: string)
      modifies task.command`target
      ensures task.command.Fields() == WithTarget(old(task.command.Fields()), target)
    {
      task.command.target := target;
    }
  }
}
