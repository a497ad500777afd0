/** Pipelines (src/command/pipeline.rs): stages spawned in order with each stage's stdout
    piped into the next stage's stdin, and the error each way of running them reports,
    given every stage's behaviour. */
module Pipeline {
  import opened Errors
  import opened Process
  import opened Stdin
  import opened Builder
  import opened Stream

  /** `Pipeline`. */
  datatype Pipeline = Pipeline(stages: seq<Command>)

  /** `Pipeline::new` and `Command::pipe`. */
  function NewPipeline(first: Command, second: Command): (r: Pipeline)
    ensures |r.stages| == 2 && r.stages[0] == first && r.stages[1] == second
  {
    Pipeline([first, second])
  }

  /** `Pipeline::pipe`. */
  function PipeInto(p: Pipeline, next: Command): (r: Pipeline)
    ensures |r.stages| == |p.stages| + 1
    ensures r.stages[..|p.stages|] == p.stages && r.stages[|p.stages|] == next
  {
    Pipeline(p.stages + [next])
  }

  /** `p` piped into each of `more` in turn: the constructors only ever grow a pipeline at
      its end, so the stages are `p`'s followed by `more`, in order. */
  function PipeAll(p: Pipeline, more: seq<Command>): (r: Pipeline)
    ensures r.stages == p.stages + more
    decreases |more|
  {
    if more == [] then p
    else
      assert p.stages + [more[0]] + more[1..] == p.stages + more;
      PipeAll(PipeInto(p, more[0]), more[1..])
  }

  /** A pipeline a caller can build starts from two commands, so it has at least two
      stages, in the order given. */
  lemma BuiltPipelineHasTwoStages(first: Command, second: Command, more: seq<Command>)
    ensures PipeAll(NewPipeline(first, second), more).stages == [first, second] + more
    ensures |PipeAll(NewPipeline(first, second), more).stages| >= 2
  {
  }

  /** A stage waited for after the final one: its child, program and stdin feeder. */
  datatype RunningStage = RunningStage(child: Child, program: string, feeder: Option<FeederHandle>)

  /** The last stage, with the pipe ends taken out of it for streaming. */
  datatype FinalStage = FinalStage(
    child: Child,
    program: string,
    stdout: Option<Pipe>,
    stderr: Option<Pipe>,
    feeder: Option<FeederHandle>)

  datatype Launched = Launched(running: seq<RunningStage>, final: FinalStage)

  /** The flags of `spawn_pipeline`: capture the last stage's stdout/stderr, and take the
      captured pipes out of its child. */
  datatype Capture = Capture(captureStdout: bool, captureStderr: bool, takeStdout: bool, takeStderr: bool)

  const EmptyPipeline: string := "empty pipeline"
  const MissingStdoutPipe: string := "missing stdout pipe"
  const MissingStderrPipe: string := "missing stderr pipe"

  /** How stage i is spawned. The first stage's stdin follows its own settings; every later
      stage reads the previous stage's stdout, whatever its own settings say. Every stage but
      the last pipes stdout and inherits stderr; the last pipes what is captured. */
  function StageConfig(stages: seq<Command>, i: nat, cap: Capture): (config: SpawnConfig)
    requires i < |stages|
    ensures config.program == stages[i].program && config.args == stages[i].args
            && config.envs == stages[i].env && config.clearEnv == stages[i].clearEnv
            && config.currentDir == stages[i].currentDir
    ensures i > 0 ==> config.stdin == FromPipe(Pipe(i - 1, StdoutStream))
    ensures i == 0 ==> (config.stdin == Piped <==> stages[0].stdin.Some?)
                       && (config.stdin == Inherit <==> stages[0].stdin.None? && stages[0].inheritStdin)
    ensures i < |stages| - 1 ==> config.stdout == Piped && config.stderr == Inherit
    ensures i == |stages| - 1 ==> (config.stdout == Piped <==> cap.captureStdout)
                                  && (config.stderr == Piped <==> cap.captureStderr)
  {
    var last := i == |stages| - 1;
    Configure(stages[i],
              if !last || cap.captureStdout then Piped else Unset,
              if !last then Inherit else if cap.captureStderr then Piped else Unset)
      .(stdin := if i == 0 then StdinChoice(stages[0]) else FromPipe(Pipe(i - 1, StdoutStream)))
  }

  /** The first stage at or after `from` whose spawn fails. */
  function FirstSpawnFailure(scripts: seq<ProcessScript>, from: nat): (r: Option<nat>)
    ensures r.Some? ==> from <= r.value < |scripts| && scripts[r.value].spawnError.Some?
                        && forall j :: from <= j < r.value ==> scripts[j].spawnError.None?
    ensures r.None? ==> forall j :: from <= j < |scripts| ==> scripts[j].spawnError.None?
    decreases |scripts| - from
  {
    if from >= |scripts| then None
    else if scripts[from].spawnError.Some? then Some(from)
    else FirstSpawnFailure(scripts, from + 1)
  }

  /** The first stage's child, spawned with the given configuration, before its feed. */
  function FirstChild(stages: seq<Command>, scripts: seq<ProcessScript>, cap: Capture): Child
    requires |scripts| == |stages| > 0 && scripts[0].spawnError.None?
  {
    Spawn(0, StageConfig(stages, 0, cap), scripts[0]).value
  }

  /** Why `spawn_pipeline` fails, in the order the failures would happen: no stages; the
      first stage does not spawn or cannot be fed; a later stage does not spawn; a pipe to
      be taken from the last stage was not captured. */
  function LaunchError(stages: seq<Command>, scripts: seq<ProcessScript>, cap: Capture,
                       available: Option<seq<bv8>>): (r: Option<Error>)
    requires |scripts| == |stages|
    ensures stages == [] ==> r == Some(Io(Other(EmptyPipeline)))
    ensures stages != [] && scripts[0].spawnError.Some? ==> r == Some(Io(scripts[0].spawnError.value))
    ensures r.None? ==> stages != [] && forall j :: 0 <= j < |scripts| ==> scripts[j].spawnError.None?
    ensures r.None? ==> (cap.takeStdout ==> cap.captureStdout) && (cap.takeStderr ==> cap.captureStderr)
  {
    if stages == [] then Some(Io(Other(EmptyPipeline)))
    else if scripts[0].spawnError.Some? then Some(Io(scripts[0].spawnError.value))
    else
      var fed := FeedOutcome(FirstChild(stages, scripts, cap), stages[0].stdin, available);
      if fed.Err? then Some(fed.error)
      else match FirstSpawnFailure(scripts, 1)
        case Some(k) => Some(Io(scripts[k].spawnError.value))
        case None =>
          if cap.takeStdout && !cap.captureStdout then Some(Io(Other(MissingStdoutPipe)))
          else if cap.takeStderr && !cap.captureStderr then Some(Io(Other(MissingStderrPipe)))
          else None
  }

  /** Stage i's child once launched: spawned, fed when it is the first stage, and with its
      stdout taken when it is not the last one (that pipe became the next stage's stdin). */
  function StageChild(stages: seq<Command>, scripts: seq<ProcessScript>, cap: Capture, i: nat)
    : (child: Child)
    requires |scripts| == |stages| && i < |stages| && scripts[i].spawnError.None?
    ensures child.script == scripts[i] && child.config == StageConfig(stages, i, cap)
    ensures i < |stages| - 1 ==> child.stdout.None?
    ensures i == |stages| - 1 ==> (child.stdout.Some? <==> cap.captureStdout)
                                  && (child.stderr.Some? <==> cap.captureStderr)
    ensures i > 0 ==> child.stdin.None? && child.written == []
  {
    var spawned := Spawn(i, StageConfig(stages, i, cap), scripts[i]).value;
    var fed := if i == 0 then AfterFeed(spawned, stages[0].stdin) else spawned;
    if i < |stages| - 1 then fed.(stdout := None) else fed
  }

  /** What `spawn_pipeline` returns: on success, one running stage per stage but the last,
      in order, each with its program, and the last stage with its program and the pipes
      it was asked to hand over. Only the first stage has a feeder. */
  function LaunchSpec(stages: seq<Command>, scripts: seq<ProcessScript>, cap: Capture,
                      available: Option<seq<bv8>>): (r: Result<Launched>)
    requires |scripts| == |stages|
    ensures r.Err? <==> LaunchError(stages, scripts, cap, available).Some?
    ensures r.Err? ==> r.error == LaunchError(stages, scripts, cap, available).value
    ensures r.Ok? ==> |r.value.running| == |stages| - 1
                      && (forall j :: 0 <= j < |stages| - 1 ==>
                            r.value.running[j].program == stages[j].program
                            && r.value.running[j].child.script == scripts[j]
                            && (j > 0 ==> r.value.running[j].feeder.None?))
                      && r.value.final.program == stages[|stages| - 1].program
                      && r.value.final.child.script == scripts[|stages| - 1]
                      && (r.value.final.stdout.Some? <==> cap.takeStdout)
                      && (r.value.final.stderr.Some? <==> cap.takeStderr)
  {
    match LaunchError(stages, scripts, cap, available)
    case Some(e) => Err(e)
    case None =>
      var n := |stages|;
      var feeder := FeedOutcome(FirstChild(stages, scripts, cap), stages[0].stdin, available).value;
      var final := StageChild(stages, scripts, cap, n - 1);
      Ok(Launched(
        seq(n - 1, i requires 0 <= i < n - 1 =>
          RunningStage(StageChild(stages, scripts, cap, i), stages[i].program, if i == 0 then feeder else None)),
        FinalStage(final.(stdout := if cap.takeStdout then None else final.stdout,
                          stderr := if cap.takeStderr then None else final.stderr),
                   stages[n - 1].program,
                   if cap.takeStdout then final.stdout else None,
                   if cap.takeStderr then final.stderr else None,
                   if n == 1 then feeder else None)))
  }

  /** The first stage's stdin slot, the only one a launch can empty. */
  function FirstSlot(stages: seq<Command>): set<ReaderSlot>
  {
    if stages == [] then {} else SlotOf(stages[0].stdin)
  }

  function FirstAvailable(stages: seq<Command>): Option<seq<bv8>>
    reads FirstSlot(stages)
  {
    if stages == [] then None else Available(stages[0].stdin)
  }

  /** Spawns one stage with the given stdin, feeding it unless it reads the previous
      stage's stdout. */
  method SpawnStage(stages: seq<Command>, scripts: seq<ProcessScript>, cap: Capture, i: nat)
    returns (child: Child, feeder: Result<Option<FeederHandle>>)
    requires |scripts| == |stages| && i < |stages|
    requires scripts[i].spawnError.None?
    modifies if i == 0 then FirstSlot(stages) else {}
    ensures i == 0 ==> feeder == FeedOutcome(FirstChild(stages, scripts, cap), stages[0].stdin,
                                              old(FirstAvailable(stages)))
    ensures i > 0 ==> feeder == Ok(None)
    ensures var spawned := Spawn(i, StageConfig(stages, i, cap), scripts[i]).value;
            child == if i == 0 then AfterFeed(spawned, stages[0].stdin) else spawned
  {
    child := Spawn(i, StageConfig(stages, i, cap), scripts[i]).value;
    feeder := Ok(None);
    if i == 0 {
      child, feeder := FeedChildStdin(child, stages[0].stdin);
    }
  }

  /** The end of `spawn_pipeline`, once every stage but the last runs: spawn the last
      stage and hand over the pipes that were asked for. */
  method LaunchLast(stages: seq<Command>, scripts: seq<ProcessScript>, cap: Capture,
                    running: seq<RunningStage>, firstFeeder: Option<FeederHandle>,
                    ghost available: Option<seq<bv8>>)
    returns (r: Result<Launched>)
    requires |scripts| == |stages| > 0
    requires |running| == |stages| - 1
    requires forall j :: 0 <= j < |stages| - 1 ==> scripts[j].spawnError.None?
    requires |stages| > 1 ==> FeedOutcome(FirstChild(stages, scripts, cap), stages[0].stdin, available).Ok?
    requires |stages| > 1 ==> firstFeeder == FeedOutcome(FirstChild(stages, scripts, cap), stages[0].stdin, available).value
    requires |stages| == 1 ==> FirstAvailable(stages) == available
    requires forall j :: 0 <= j < |stages| - 1 ==>
               running[j] == RunningStage(StageChild(stages, scripts, cap, j), stages[j].program,
                                          if j == 0 then firstFeeder else None)
    modifies if |stages| == 1 then FirstSlot(stages) else {}
    ensures r == LaunchSpec(stages, scripts, cap, available)
  {
    var last := |stages| - 1;
    assert last > 0 ==> FirstSpawnFailure(scripts, 1) == FirstSpawnFailure(scripts, last);
    if scripts[last].spawnError.Some? {
      return Err(Io(scripts[last].spawnError.value));
    }
    var child, fed := SpawnStage(stages, scripts, cap, last);
    if fed.Err? {
      return Err(fed.error);
    }
    var stdout: Option<Pipe> := None;
    if cap.takeStdout {
      if child.stdout.None? {
        return Err(Io(Other(MissingStdoutPipe)));
      }
      stdout := child.stdout;
      child := child.(stdout := None);
    }
    var stderr: Option<Pipe> := None;
    if cap.takeStderr {
      if child.stderr.None? {
        return Err(Io(Other(MissingStderrPipe)));
      }
      stderr := child.stderr;
      child := child.(stderr := None);
    }
    assert FirstSpawnFailure(scripts, 1).None?;
    assert LaunchError(stages, scripts, cap, available).None?;
    assert running == LaunchSpec(stages, scripts, cap, available).value.running;
    r := Ok(Launched(running, FinalStage(child, stages[last].program, stdout, stderr, fed.value)));
  }

  /** `spawn_pipeline`. */
  method SpawnPipeline(stages: seq<Command>, scripts: seq<ProcessScript>, cap: Capture)
    returns (r: Result<Launched>)
    requires |scripts| == |stages|
    modifies FirstSlot(stages)
    ensures r == LaunchSpec(stages, scripts, cap, old(FirstAvailable(stages)))
  {
    if |stages| == 0 {
      return Err(Io(Other(EmptyPipeline)));
    }
    ghost var available := FirstAvailable(stages);
    var last := |stages| - 1;
    var running: seq<RunningStage> := [];
    var firstFeeder: Option<FeederHandle> := None;
    var i := 0;
    while i < last
      invariant 0 <= i <= last
      invariant |running| == i
      invariant forall j :: 0 <= j < i ==> scripts[j].spawnError.None?
      invariant i > 0 ==> FeedOutcome(FirstChild(stages, scripts, cap), stages[0].stdin, available).Ok?
      invariant i > 0 ==> firstFeeder == FeedOutcome(FirstChild(stages, scripts, cap), stages[0].stdin, available).value
      invariant i == 0 ==> FirstAvailable(stages) == available
      invariant forall j :: 0 <= j < i ==>
                  running[j] == RunningStage(StageChild(stages, scripts, cap, j), stages[j].program,
                                             if j == 0 then firstFeeder else None)
    {
      if scripts[i].spawnError.Some? {
        return Err(Io(scripts[i].spawnError.value));
      }
      var child, fed := SpawnStage(stages, scripts, cap, i);
      if fed.Err? {
        return Err(fed.error);
      }
      if i == 0 {
        firstFeeder := fed.value;
      }
      // A stage that is not the last always has its stdout piped.
      assert child.stdout.Some?;
      running := running + [RunningStage(child.(stdout := None), stages[i].program, fed.value)];
      i := i + 1;
    }
    r := LaunchLast(stages, scripts, cap, running, firstFeeder, available);
  }

  /** What waiting for one upstream stage reports: a failed wait, then its feeder's
      result, then its exit status, a failure of which is a command error naming the stage
      with the inherited-stderr text. */
  function StageResult(s: RunningStage): (r: Result<()>)
    ensures r.Ok? <==> s.child.script.wait.Exit? && WaitStdinWriter(s.feeder).Ok?
                       && s.child.script.wait.status.Success()
  {
    match s.child.script.wait
    case WaitFailed(e) => Err(Io(e))
    case Exit(status) =>
      var writer := WaitStdinWriter(s.feeder);
      if writer.Err? then Err(writer.error)
      else if status.Success() then Ok(())
      else Err(Error.Command(s.program, status, InheritedStderr))
  }

  /** The first upstream stage, in pipeline order, whose wait fails. */
  function FirstFailing(stages: seq<RunningStage>): (r: Option<nat>)
    ensures r.Some? ==> r.value < |stages| && StageResult(stages[r.value]).Err?
                        && forall j :: 0 <= j < r.value ==> StageResult(stages[j]).Ok?
    ensures r.None? ==> forall j :: 0 <= j < |stages| ==> StageResult(stages[j]).Ok?
  {
    if stages == [] then None
    else if StageResult(stages[0]).Err? then Some(0)
    else match FirstFailing(stages[1..])
      case None => None
      case Some(k) => Some(k + 1)
  }

  /** `wait_running_stages` as a value: the upstream stages waited in order, stopping at the
      first failure. */
  function RunningResult(stages: seq<RunningStage>): (r: Result<()>)
    ensures r.Err? ==> exists j :: 0 <= j < |stages| && r == StageResult(stages[j])
  {
    if stages == [] then Ok(())
    else if StageResult(stages[0]).Err? then StageResult(stages[0])
    else RunningResult(stages[1..])
  }

  /** Waiting on the upstream stages succeeds iff every stage succeeds; otherwise it reports
      the first failing stage in order, every stage before which succeeded. */
  lemma {:induction false} RunningResultFirstFailure(stages: seq<RunningStage>)
    ensures RunningResult(stages).Ok? <==> forall j :: 0 <= j < |stages| ==> StageResult(stages[j]).Ok?
    ensures RunningResult(stages).Ok? <==> FirstFailing(stages).None?
    ensures FirstFailing(stages).Some? ==>
              var k := FirstFailing(stages).value;
              k < |stages| && RunningResult(stages) == StageResult(stages[k])
              && forall j :: 0 <= j < k ==> StageResult(stages[j]).Ok?
  {
    if stages != [] {
      RunningResultFirstFailure(stages[1..]);
      if StageResult(stages[0]).Ok? {
        assert forall j :: 1 <= j < |stages| ==> stages[j] == stages[1..][j - 1];
      }
    }
  }

  /** `wait_running_stages`: waits for each upstream stage in order and returns at the first
      failure, leaving the later stages unwaited. `waited` is how many stages it waited for. */
  method WaitRunningStages(stages: seq<RunningStage>) returns (r: Result<()>, waited: nat)
    ensures r == RunningResult(stages)
    ensures waited == match FirstFailing(stages) case None => |stages| case Some(k) => k + 1
  {
    waited := 0;
    while waited < |stages|
      invariant waited <= |stages|
      invariant RunningResult(stages) == RunningResult(stages[waited..])
      invariant FirstFailing(stages) == match FirstFailing(stages[waited..])
                                       case None => None case Some(k) => Some(k + waited)
    {
      WaitStep(stages, waited);
      var result := WaitStage(stages[waited]);
      waited := waited + 1;
      if result.Err? {
        return result, waited;
      }
    }
    r := Ok(());
  }

  /** Waiting for one upstream stage: its wait, then its feeder, then its status. */
  method WaitStage(stage: RunningStage) returns (r: Result<()>)
    ensures r == StageResult(stage)
  {
    if stage.child.script.wait.WaitFailed? {
      return Err(Io(stage.child.script.wait.err));
    }
    var status := stage.child.script.wait.status;
    var writer := WaitStdinWriter(stage.feeder);
    if writer.Err? {
      return Err(writer.error);
    }
    if !status.Success() {
      return Err(Error.Command(stage.program, status, InheritedStderr));
    }
    r := Ok(());
  }

  /** Waiting from stage `k` on: that stage's failure, or waiting from the next one. */
  lemma WaitStep(stages: seq<RunningStage>, k: nat)
    requires k < |stages|
    ensures RunningResult(stages[k..]) ==
            if StageResult(stages[k]).Err? then StageResult(stages[k]) else RunningResult(stages[k + 1..])
    ensures FirstFailing(stages[k..]) ==
            if StageResult(stages[k]).Err? then Some(0)
            else match FirstFailing(stages[k + 1..]) case None => None case Some(j) => Some(j + 1)
  {
    assert stages[k..][1..] == stages[k + 1..];
  }

  /** `Pipeline::run` once launched: a failed final wait, then the final feeder, then the
      final status, which wins over any upstream failure; only a successful final stage
      lets the upstream result through. */
  function RunVerdict(launched: Launched): (r: Result<()>)
    ensures var final := launched.final;
            r.Ok? <==> final.child.script.wait.Exit? && WaitStdinWriter(final.feeder).Ok?
                       && final.child.script.wait.status.Success() && RunningResult(launched.running).Ok?
  {
    var final := launched.final;
    match final.child.script.wait
    case WaitFailed(e) => Err(Io(e))
    case Exit(status) =>
      var writer := WaitStdinWriter(final.feeder);
      if writer.Err? then Err(writer.error)
      else if !status.Success() then Err(Error.Command(final.program, status, InheritedStderr))
      else RunningResult(launched.running)
  }

  /** `Pipeline::output` once launched: a failed final wait, then the final feeder, then
      the upstream stages, and only then the final status, with the lossily decoded stderr. */
  function OutputVerdict(launched: Launched, codec: Codec): (r: Result<Output>)
    ensures var final := launched.final;
            r.Ok? <==> final.child.script.wait.Exit? && WaitStdinWriter(final.feeder).Ok?
                       && final.child.script.wait.status.Success() && RunningResult(launched.running).Ok?
    ensures r.Ok? ==> r.value == Output(launched.final.child.script.wait.status,
                                        launched.final.child.script.stdout, launched.final.child.script.stderr)
  {
    var final := launched.final;
    match final.child.script.wait
    case WaitFailed(e) => Err(Io(e))
    case Exit(status) =>
      var writer := WaitStdinWriter(final.feeder);
      if writer.Err? then Err(writer.error)
      else
        var upstream := RunningResult(launched.running);
        if upstream.Err? then Err(upstream.error)
        else CheckOutput(final.program, Output(status, final.child.script.stdout,
                                               final.child.script.stderr), codec)
  }

  /** The precedence of `run` and `output` differs exactly when both the final stage and an
      upstream stage fail: `run` reports the final stage, `output` the upstream one. When
      only one of them fails, both report it (`run` with the inherited-stderr text). */
  lemma RunAndOutputPrecedence(launched: Launched, codec: Codec)
    requires launched.final.child.script.wait.Exit?
    requires WaitStdinWriter(launched.final.feeder).Ok?
    ensures var status := launched.final.child.script.wait.status;
            var upstream := RunningResult(launched.running);
            (!status.Success() ==>
               RunVerdict(launched) == Err(Error.Command(launched.final.program, status, InheritedStderr)))
            && (upstream.Err? ==> OutputVerdict(launched, codec) == Err(upstream.error))
            && (status.Success() ==> RunVerdict(launched) == upstream
                                     && (upstream.Ok? ==> OutputVerdict(launched, codec).Ok?))
            && (!status.Success() && upstream.Ok? ==>
                  OutputVerdict(launched, codec)
                  == Err(Error.Command(launched.final.program, status,
                                       codec.lossy(launched.final.child.script.stderr))))
  {
  }

  /** `sh("false").pipe(sh("cat")).run()` fails: both stages launch, the final `cat`
      succeeds, so the failure of the upstream `false` is reported. */
  lemma FalsePipedIntoCatFails(falseRun: ProcessScript, catRun: ProcessScript, failed: ExitStatus,
                               available: Option<seq<bv8>>)
    requires falseRun.spawnError.None? && catRun.spawnError.None?
    requires falseRun.wait == Exit(failed) && !failed.Success()
    requires catRun.wait == Exit(Exited(0))
    ensures var launched := LaunchSpec(NewPipeline(Sh("false"), Sh("cat")).stages, [falseRun, catRun],
                                       Capture(false, false, false, false), available);
            launched.Ok? && launched.value.running[0].child.script == falseRun
            && launched.value.final.child.script == catRun
            && RunVerdict(launched.value) == Err(Error.Command("sh", failed, InheritedStderr))
  {
    var stages := NewPipeline(Sh("false"), Sh("cat")).stages;
    var scripts := [falseRun, catRun];
    var cap := Capture(false, false, false, false);
    assert FirstSpawnFailure(scripts, 1).None? by {
      assert FirstSpawnFailure(scripts, 2).None?;
    }
    assert LaunchError(stages, scripts, cap, available).None?;
    var launched := LaunchSpec(stages, scripts, cap, available).value;
    assert launched.running[0].child.script == falseRun;
    assert launched.running[0].feeder.None? && launched.final.feeder.None?;
    assert RunningResult(launched.running[1..]) == Ok(());
  }

  /** `Pipeline::run`: nothing captured, all stages' stderr and the last stage's stdout
      inherited. */
  method Run(p: Pipeline, scripts: seq<ProcessScript>) returns (r: Result<()>)
    requires |scripts| == |p.stages|
    modifies FirstSlot(p.stages)
    ensures var launched := LaunchSpec(p.stages, scripts, Capture(false, false, false, false),
                                       old(FirstAvailable(p.stages)));
            r == if launched.Err? then Err(launched.error) else RunVerdict(launched.value)
  {
    var launched := SpawnPipeline(p.stages, scripts, Capture(false, false, false, false));
    if launched.Err? {
      return Err(launched.error);
    }
    var final := launched.value.final;
    if final.child.script.wait.WaitFailed? {
      return Err(Io(final.child.script.wait.err));
    }
    var status := final.child.script.wait.status;
    var writer := WaitStdinWriter(final.feeder);
    if writer.Err? {
      return Err(writer.error);
    }
    var upstream, _ := WaitRunningStages(launched.value.running);
    if !status.Success() {
      return Err(Error.Command(final.program, status, InheritedStderr));
    }
    r := upstream;
  }

  /** `Pipeline::output`: the last stage's stdout and stderr captured. */
  method PipelineOutput(p: Pipeline, scripts: seq<ProcessScript>, codec: Codec) returns (r: Result<Output>)
    requires |scripts| == |p.stages|
    modifies FirstSlot(p.stages)
    ensures var launched := LaunchSpec(p.stages, scripts, Capture(true, true, false, false),
                                       old(FirstAvailable(p.stages)));
            r == if launched.Err? then Err(launched.error) else OutputVerdict(launched.value, codec)
  {
    var launched := SpawnPipeline(p.stages, scripts, Capture(true, true, false, false));
    if launched.Err? {
      return Err(launched.error);
    }
    var final := launched.value.final;
    if final.child.script.wait.WaitFailed? {
      return Err(Io(final.child.script.wait.err));
    }
    var status := final.child.script.wait.status;
    var writer := WaitStdinWriter(final.feeder);
    if writer.Err? {
      return Err(writer.error);
    }
    var upstream, _ := WaitRunningStages(launched.value.running);
    if upstream.Err? {
      return Err(upstream.error);
    }
    r := CheckOutput(final.program, Output(status, final.child.script.stdout, final.child.script.stderr), codec);
  }

  /** The trailing error of the pipeline's streaming producer: a failed final wait; then a
      failed final status, with the drained other stream as its text; then the final
      feeder's error; then the first upstream failure. */
  function PipelineTrailing(program: string, wait: WaitOutcome, feeder: Result<()>,
                            upstream: Result<()>, companion: string): (r: Option<Error>)
    ensures r.None? <==> wait.Exit? && wait.status.Success() && feeder.Ok? && upstream.Ok?
    ensures wait.Exit? && wait.status.Success() && feeder.Ok? && upstream.Err? ==>
              r == Some(upstream.error)
  {
    match wait
    case WaitFailed(e) => Some(Io(e))
    case Exit(status) =>
      if !status.Success() then Some(Error.Command(program, status, companion))
      else if feeder.Err? then Some(feeder.error)
      else if upstream.Err? then Some(upstream.error)
      else None
  }

  /** With every upstream stage successful, the pipeline producer ends exactly as the
      single-command producer does. */
  lemma TrailingExtendsSingle(program: string, wait: WaitOutcome, feeder: Result<()>, companion: string)
    ensures PipelineTrailing(program, wait, feeder, Ok(()), companion)
            == SingleTrailing(program, wait, feeder, companion)
  {
  }

  /** The streaming launch: everything captured and taken, so both pipes of the last stage
      are present. */
  const Streaming: Capture := Capture(true, true, true, true)

  /** `Pipeline::stream_lines` and `Pipeline::stream_stderr`: the last stage's `streamed`
      pipe is read line by line while the other one is drained; the trailing error takes
      the drained text and the upstream result into account. */
  method StreamPipeline(p: Pipeline, scripts: seq<ProcessScript>, events: seq<ReadEvent>,
                        consumer: Consumer, codec: Codec, streamed: Process.Stream)
    returns (r: Result<Production>)
    requires |scripts| == |p.stages|
    requires streamed != StdinStream
    modifies FirstSlot(p.stages)
    ensures var launched := LaunchSpec(p.stages, scripts, Streaming, old(FirstAvailable(p.stages)));
            r == if launched.Err? then Err(launched.error)
                 else
                   var final := launched.value.final;
                   var drained := if streamed == StdoutStream then final.child.script.stderr
                                  else final.child.script.stdout;
                   Ok(Produce(events, consumer, 0,
                              PipelineTrailing(final.program, final.child.script.wait,
                                               WaitStdinWriter(final.feeder),
                                               RunningResult(launched.value.running),
                                               CompanionText(drained, codec)),
                              PipelineFinal))
  {
    var launched := SpawnPipeline(p.stages, scripts, Streaming);
    if launched.Err? {
      return Err(launched.error);
    }
    var final := launched.value.final;
    assert final.stdout.Some? && final.stderr.Some?;
    var drained := if streamed == StdoutStream then final.child.script.stderr else final.child.script.stdout;
    var upstream, _ := WaitRunningStages(launched.value.running);
    var trailing := PipelineTrailing(final.program, final.child.script.wait, WaitStdinWriter(final.feeder),
                                     upstream, CompanionText(drained, codec));
    var delivered, finish := ProduceLines(events, consumer, trailing, PipelineFinal);
    r := Ok(Production(delivered, finish));
  }
}
