/**
 * The command runner: a per-tool isolation policy and the safe-mode
 * flag choose between running a command vector directly on the host and
 * running it, space-joined, in a fresh sandbox container with its input
 * files staged first. Every failure ends up as an `("", message)` pair.
 */
module KaliCommand {
  import opened Wrappers
  import opened Text
  import opened PosixPath
  import opened Engine
  import opened Sandbox

  /** (stdout, stderr). */
  type Pair = (string, string)

  /** `input_files`: the dict's (local path, container path) entries in insertion order. */
  type StagingMap = seq<(string, string)>

  /** The runner's constructor arguments, with the constructor's defaults. */
  datatype Policy = Policy(
    commandName: string,
    networkEnabled: bool := false,
    memoryLimit: string := "1g",
    timeout: int := 120)

  /** What spawning a host process yields: its two streams, or the exception's text. */
  datatype Process = Spawned(stdout: string, stderr: string) | SpawnFailed(detail: string)

  /** What a tool action hands to `execute`: the runner's policy, the vector and the staging map. */
  datatype Invocation = Invocation(policy: Policy, command: seq<string>, inputFiles: Option<StagingMap>)

  lemma PolicyDefaults(name: string)
    ensures Policy(name) == Policy(name, false, "1g", 120)
  {
  }

  /** `os.environ.get("IS_SAFE", "false").lower() == "true"`, with the variable's value passed in. */
  function SafeFlag(env: Option<string>): (safe: bool)
    ensures safe <==> env.Some? && |env.value| == 4
                      && env.value[0] in "tT" && env.value[1] in "rR"
                      && env.value[2] in "uU" && env.value[3] in "eE"
  {
    Lower(env.GetOr("false")) == "true"
  }

  lemma SafeFlagExamples()
    ensures SafeFlag(Some("true")) && SafeFlag(Some("TRUE")) && SafeFlag(Some("True"))
    ensures !SafeFlag(None) && !SafeFlag(Some("false")) && !SafeFlag(Some("1")) && !SafeFlag(Some(" true"))
  {
  }

  /** The settings of the sandbox path: the Kali image, one CPU, the runner's limits. */
  function KaliSettings(networkEnabled: bool, memoryLimit: string, timeout: int): (config: SandboxSettings)
    ensures config.image == "kalilinux/kali-rolling" && config.cpuLimit == 1.0
    ensures config.memoryLimit == memoryLimit && config.networkEnabled == networkEnabled
    ensures config.timeout == timeout && config.networkMode == "bridge"
  {
    SandboxSettings(image := "kalilinux/kali-rolling", memoryLimit := memoryLimit, cpuLimit := 1.0,
                    networkEnabled := networkEnabled, timeout := timeout)
  }

  /** The container request of the sandbox path: bridged or without network, never timed. */
  lemma KaliContainerRequest(networkEnabled: bool, memoryLimit: string, timeout: int, t: int)
    ensures ContainerConfig(KaliSettings(networkEnabled, memoryLimit, timeout))
         == Run("kalilinux/kali-rolling", memoryLimit, 1.0, if networkEnabled then "bridge" else "none")
    ensures ContainerConfig(KaliSettings(networkEnabled, memoryLimit, timeout))
         == ContainerConfig(KaliSettings(networkEnabled, memoryLimit, t))
  {
  }

  // ---------------------------------------------------------------------
  // The sandbox path as a function of the engine's world
  // ---------------------------------------------------------------------

  /** `if input_files:` — None and the empty dict both stage nothing. */
  function FilesToStage(inputFiles: Option<StagingMap>): StagingMap {
    inputFiles.GetOr([])
  }

  /** Stage the entries in order; the first failure stops the loop. */
  function StageAll(s: Snapshot, files: StagingMap): Step
    decreases |files|
  {
    if |files| == 0 then Step(Done(""), s)
    else
      var c := CopyToStep(s, files[0].0, files[0].1);
      if c.status.Raised? then c else StageAll(c.after, files[1..])
  }

  /** The try block of `run_with_sandbox`: create, stage, run the joined vector. */
  function SandboxBody(config: SandboxSettings, command: seq<string>, files: StagingMap, s: Snapshot): Step {
    var c := CreateStep(s, config);
    if c.status.Raised? then c
    else
      var st := StageAll(c.after, files);
      if st.status.Raised? then st else RunCommandStep(st.after, Join(command))
  }

  /**
   * `run_with_sandbox`: connecting to the engine happens before the try and
   * may escape; everything inside is caught as `("", str(e))`, and cleanup
   * runs in `finally`.
   */
  function SandboxRun(config: SandboxSettings, command: seq<string>, inputFiles: Option<StagingMap>, w: World)
    : (Made<Pair>, World)
  {
    var (connected, w1) := Answer(w, FromEnv);
    if connected.Fail? then (Threw(EngineFailure(connected.detail)), w1)
    else
      var body := SandboxBody(config, command, FilesToStage(inputFiles), Snapshot(w1, None));
      (Made(Fold(body.status)), CleanupStep(body.after).world)
  }

  /** `return stdout, ""` on success, `return "", str(e)` in the except clause. */
  function Fold(status: Status): Pair {
    match status
    case Done(out) => (out, "")
    case Raised(e) => ("", e.message)
  }

  /** `safe_execute_kali_command`: what escapes is classified like in `run_in_sandbox`. */
  function SafeExecuteOutcome(config: SandboxSettings, command: seq<string>, inputFiles: Option<StagingMap>, w: World)
    : (Pair, World)
  {
    var (made, w') := SandboxRun(config, command, inputFiles, w);
    match made
    case Made(p) => (p, w')
    case Threw(e) => (("", Describe(e)), w')
  }

  /** `execute`: the sandbox path in safe mode, the host otherwise. */
  function ExecuteSpec(safe: bool, config: SandboxSettings, command: seq<string>, inputFiles: Option<StagingMap>,
                       host: seq<string> -> Process, w: World): (Pair, World)
  {
    if safe then SafeExecuteOutcome(config, command, inputFiles, w)
    else (CommandRunner.RunCommand(command, host), w)
  }

  // ---------------------------------------------------------------------
  // The runner
  // ---------------------------------------------------------------------

  class CommandRunner {
    const commandName: string
    const networkEnabled: bool
    const memoryLimit: string
    const timeout: int
    const isSafe: bool

    /** Stores the policy and reads the safe-mode flag once. */
    constructor (policy: Policy, env: Option<string>)
      ensures commandName == policy.commandName && networkEnabled == policy.networkEnabled
      ensures memoryLimit == policy.memoryLimit && timeout == policy.timeout
      ensures isSafe == SafeFlag(env)
    {
      commandName := policy.commandName;
      networkEnabled := policy.networkEnabled;
      memoryLimit := policy.memoryLimit;
      timeout := policy.timeout;
      isSafe := SafeFlag(env);
    }

    /** The direct path: the process's own streams, or `("", str(e))` when spawning fails. */
    static function RunCommand(command: seq<string>, host: seq<string> -> Process): (r: Pair)
      ensures host(command).Spawned? ==> r == (host(command).stdout, host(command).stderr)
      ensures host(command).SpawnFailed? ==> r == ("", host(command).detail)
    {
      match host(command)
      case Spawned(out, err) => (out, err)
      case SpawnFailed(d) => ("", d)
    }

    function Settings(): SandboxSettings {
      KaliSettings(networkEnabled, memoryLimit, timeout)
    }

    method RunWithSandbox(command: seq<string>, inputFiles: Option<StagingMap>, engine: DockerEngine)
      returns (r: Made<Pair>)
      modifies engine
      ensures (r, engine.State()) == SandboxRun(Settings(), command, inputFiles, old(engine.State()))
    {
      var made := CreateSandboxClient(engine);
      if made.Threw? {
        return Threw(made.exc);
      }
      var client := made.value;
      var status := client.Create(Settings());
      ghost var created := client.State();
      if status.Done? && inputFiles.Some? && |inputFiles.value| > 0 {
        var files := inputFiles.value;
        var i := 0;
        assert files[i..] == files;
        while i < |files| && status.Done?
          invariant 0 <= i <= |files|
          invariant client.engine == engine
          invariant status.Done? ==> StageAll(created, files) == StageAll(client.State(), files[i..])
          invariant status.Raised? ==> StageAll(created, files) == Step(status, client.State())
        {
          assert files[i..][0] == files[i] && files[i..][1..] == files[i + 1..];
          status := client.CopyToContainer(files[i].0, files[i].1);
          i := i + 1;
        }
      }
      if status.Done? {
        status := client.RunCommand(Join(command));
      }
      r := Made(Fold(status));
      client.Cleanup();
    }

    method SafeExecuteKaliCommand(command: seq<string>, inputFiles: Option<StagingMap>, engine: DockerEngine)
      returns (r: Pair)
      modifies engine
      ensures (r, engine.State()) == SafeExecuteOutcome(Settings(), command, inputFiles, old(engine.State()))
    {
      var made := RunWithSandbox(command, inputFiles, engine);
      r := match made case Made(p) => p case Threw(e) => ("", Describe(e));
    }

    method Execute(command: seq<string>, inputFiles: Option<StagingMap>, engine: DockerEngine,
                   host: seq<string> -> Process) returns (r: Pair)
      modifies engine
      ensures (r, engine.State()) == ExecuteSpec(isSafe, Settings(), command, inputFiles, host, old(engine.State()))
    {
      if isSafe {
        r := SafeExecuteKaliCommand(command, inputFiles, engine);
      } else {
        r := RunCommand(command, host);
      }
    }
  }

  /** A tool action: build the tool's runner, then execute its vector. */
  method Perform(inv: Invocation, env: Option<string>, engine: DockerEngine, host: seq<string> -> Process)
    returns (r: Pair)
    modifies engine
    ensures (r, engine.State()) == ExecuteSpec(SafeFlag(env),
      KaliSettings(inv.policy.networkEnabled, inv.policy.memoryLimit, inv.policy.timeout),
      inv.command, inv.inputFiles, host, old(engine.State()))
  {
    var runner := new CommandRunner(inv.policy, env);
    r := runner.Execute(inv.command, inv.inputFiles, engine, host);
  }

  // ---------------------------------------------------------------------
  // Properties of the sandbox path
  // ---------------------------------------------------------------------

  /** Number of leading successes among the next `n` replies. */
  function OkRun(script: seq<Reply>, n: nat): (k: nat)
    ensures k <= n
    ensures forall j :: 0 <= j < k ==> NextReply(Drop(script, j)).Ok?
    ensures k < n ==> NextReply(Drop(script, k)).Fail?
  {
    if n == 0 || NextReply(script).Fail? then 0 else 1 + OkRun(Rest(script), n - 1)
  }

  /** Number of staging requests made: up to and including the first failure. */
  function Attempted(script: seq<Reply>, n: nat): (m: nat)
    ensures m <= n
  {
    var k := OkRun(script, n);
    if k < n then k + 1 else n
  }

  function ArchiveEvent(id: nat, entry: (string, string)): Event {
    PutArchive(id, Dirname(entry.1), Basename(entry.1), entry.0)
  }

  /** The upload requests for the entries, in order. */
  function ArchiveEvents(id: nat, files: StagingMap): seq<Event> {
    if |files| == 0 then [] else [ArchiveEvent(id, files[0])] + ArchiveEvents(id, files[1..])
  }

  /** One staging request, as the upload of one entry. */
  lemma CopyToStepIsArchive(s: Snapshot, entry: (string, string))
    requires s.container.Some?
    ensures var c := CopyToStep(s, entry.0, entry.1);
      && c.after == Snapshot(Answer(s.world, ArchiveEvent(s.container.value.id, entry)).1, s.container)
      && (c.status.Done? <==> NextReply(s.world.script).Ok?)
      && (c.status.Done? ==> c.status.value == "")
      && (c.status.Raised? ==>
            c.status.exc == SandboxError("Failed to copy file to container: " + NextReply(s.world.script).detail))
  {
  }

  lemma AttemptedAfterOk(script: seq<Reply>, n: nat)
    requires n > 0 && NextReply(script).Ok?
    ensures Attempted(script, n) == 1 + Attempted(Rest(script), n - 1)
  {
  }

  /** A trace extended by the first upload and then by the next m is extended by the first 1 + m. */
  lemma ArchiveEventsCons(trace: seq<Event>, id: nat, files: StagingMap, m: nat)
    requires 0 < |files| && m < |files|
    ensures trace + [ArchiveEvent(id, files[0])] + ArchiveEvents(id, files[1..][..m])
         == trace + ArchiveEvents(id, files[..1 + m])
  {
    assert files[..1 + m][1..] == files[1..][..m];
    assert ArchiveEvents(id, files[..1 + m]) == [ArchiveEvent(id, files[0])] + ArchiveEvents(id, files[1..][..m]);
  }

  /** Staging made the upload requests up to and including the first refused one, and kept the handle. */
  ghost predicate RequestsMade(s: Snapshot, files: StagingMap)
    requires s.container.Some?
  {
    var r := StageAll(s, files);
    var m := Attempted(s.world.script, |files|);
    && r.after.container == s.container
    && r.after.world.trace == s.world.trace + ArchiveEvents(s.container.value.id, files[..m])
    && r.after.world.script == Drop(s.world.script, m)
  }

  lemma StageRequestsOk(s: Snapshot, files: StagingMap)
    requires s.container.Some? && |files| > 0 && NextReply(s.world.script).Ok?
    requires RequestsMade(CopyToStep(s, files[0].0, files[0].1).after, files[1..])
    ensures RequestsMade(s, files)
  {
    var id := s.container.value.id;
    CopyToStepIsArchive(s, files[0]);
    var c := CopyToStep(s, files[0].0, files[0].1);
    var first := ArchiveEvent(id, files[0]);
    var r := StageAll(c.after, files[1..]);
    assert StageAll(s, files) == r;
    var m' := Attempted(Rest(s.world.script), |files| - 1);
    AttemptedAfterOk(s.world.script, |files|);
    ArchiveEventsCons(s.world.trace, id, files, m');
    assert c.after.world == World(Rest(s.world.script), s.world.trace + [first]);
    assert r.after.world.script == Drop(s.world.script, 1 + m');
  }

  lemma StageRequestsFail(s: Snapshot, files: StagingMap)
    requires s.container.Some? && |files| > 0 && NextReply(s.world.script).Fail?
    ensures RequestsMade(s, files)
  {
    var id := s.container.value.id;
    CopyToStepIsArchive(s, files[0]);
    var c := CopyToStep(s, files[0].0, files[0].1);
    var first := ArchiveEvent(id, files[0]);
    assert StageAll(s, files) == c;
    assert Attempted(s.world.script, |files|) == 1;
    assert files[..1] == [files[0]];
    assert ArchiveEvents(id, files[..1]) == [first];
    assert Drop(s.world.script, 1) == Rest(s.world.script);
  }

  /** Staging uploads the entries in order until the first refused one, and keeps the handle. */
  lemma {:induction false} StageAllRequests(s: Snapshot, files: StagingMap)
    requires s.container.Some?
    ensures RequestsMade(s, files)
    decreases |files|
  {
    if |files| == 0 {
      assert files[..0] == [];
    } else if NextReply(s.world.script).Ok? {
      StageAllRequests(CopyToStep(s, files[0].0, files[0].1).after, files[1..]);
      StageRequestsOk(s, files);
    } else {
      StageRequestsFail(s, files);
    }
  }

  /** Staging succeeds exactly when every entry was accepted; a refusal's detail is reported. */
  lemma {:induction false} StageAllStatus(s: Snapshot, files: StagingMap)
    requires s.container.Some?
    ensures var r := StageAll(s, files);
      var k := OkRun(s.world.script, |files|);
      && (r.status.Done? <==> k == |files|)
      && (r.status.Done? ==> r.status.value == "")
      && (r.status.Raised? ==>
            r.status.exc == SandboxError("Failed to copy file to container: " + NextReply(Drop(s.world.script, k)).detail))
    decreases |files|
  {
    if |files| > 0 {
      CopyToStepIsArchive(s, files[0]);
      var c := CopyToStep(s, files[0].0, files[0].1);
      if NextReply(s.world.script).Ok? {
        assert StageAll(s, files) == StageAll(c.after, files[1..]);
        assert c.after.world.script == Rest(s.world.script);
        StageAllStatus(c.after, files[1..]);
        var k' := OkRun(Rest(s.world.script), |files| - 1);
        assert OkRun(s.world.script, |files|) == 1 + k';
        assert Drop(s.world.script, 1 + k') == Drop(Rest(s.world.script), k');
      } else {
        assert StageAll(s, files) == c;
        assert OkRun(s.world.script, |files|) == 0;
        assert Drop(s.world.script, 0) == s.world.script;
      }
    }
  }

  /**
   * Staging uploads the entries in order until the first refused one; it
   * succeeds exactly when every entry was uploaded.
   */
  lemma StageAllTrace(s: Snapshot, files: StagingMap)
    requires s.container.Some?
    ensures var r := StageAll(s, files);
      var k := OkRun(s.world.script, |files|);
      var m := Attempted(s.world.script, |files|);
      && r.after.container == s.container
      && r.after.world.trace == s.world.trace + ArchiveEvents(s.container.value.id, files[..m])
      && r.after.world.script == Drop(s.world.script, m)
      && (r.status.Done? <==> k == |files|)
      && (r.status.Done? ==> r.status.value == "")
      && (r.status.Raised? ==>
            r.status.exc == SandboxError("Failed to copy file to container: " + NextReply(Drop(s.world.script, k)).detail))
  {
    StageAllRequests(s, files);
    StageAllStatus(s, files);
  }

  /** With no engine connection or no container, nothing more happens. */
  lemma SandboxRunEarlyFailures(config: SandboxSettings, command: seq<string>, inputFiles: Option<StagingMap>, w: World)
    ensures var (r, w') := SandboxRun(config, command, inputFiles, w);
      var d1 := NextReply(Drop(w.script, 1));
      && (NextReply(w.script).Fail? ==>
            r == Threw(EngineFailure(NextReply(w.script).detail)) && w'.trace == w.trace + [FromEnv])
      && (NextReply(w.script).Ok? && d1.Fail? ==>
            r == Made(("", "Failed to create container: " + d1.detail))
            && w'.trace == w.trace + [FromEnv, ContainerConfig(config)])
  {
    var (connected, w1) := Answer(w, FromEnv);
    if connected.Ok? {
      CreateStepEffect(Snapshot(w1, None), config);
    }
  }

  /** The try block once the container is created: uploads in order, then the command if all succeeded. */
  lemma SandboxBodyTrace(config: SandboxSettings, command: seq<string>, files: StagingMap, s: Snapshot)
    requires NextReply(s.world.script).Ok?
    ensures var b := SandboxBody(config, command, files, s);
      var id := |s.world.trace|;
      var script := Drop(s.world.script, 1);
      var k := OkRun(script, |files|);
      var m := Attempted(script, |files|);
      var staged := k == |files|;
      var atExec := Drop(script, m);
      && b.after.container == Some(Container(id))
      && b.after.world.trace == s.world.trace + [ContainerConfig(config)] + ArchiveEvents(id, files[..m])
                                + (if staged then [Exec(id, Join(command))] else [])
      && b.after.world.script == (if staged then Drop(atExec, 1) else atExec)
      && (staged && NextReply(atExec).Ok? ==> b.status == Done(NextReply(atExec).output))
      && (staged && NextReply(atExec).Fail? ==>
            b.status == Raised(SandboxError("Failed to execute command: " + NextReply(atExec).detail)))
      && (!staged ==> b.status == Raised(SandboxError("Failed to copy file to container: " + NextReply(Drop(script, k)).detail)))
  {
    CreateStepEffect(s, config);
    var c := CreateStep(s, config);
    StageAllTrace(c.after, files);
    var st := StageAll(c.after, files);
    if st.status.Done? {
      RunCommandStepEffect(st.after, Join(command));
    }
  }

  /**
   * Once a container exists, the run is: upload the entries in map order
   * (stopping at the first failure), execute the joined vector only if all
   * were uploaded, then stop and remove that same container.
   */
  lemma SandboxRunTrace(config: SandboxSettings, command: seq<string>, inputFiles: Option<StagingMap>, w: World)
    requires NextReply(w.script).Ok? && NextReply(Drop(w.script, 1)).Ok?
    ensures var (r, w') := SandboxRun(config, command, inputFiles, w);
      var files := FilesToStage(inputFiles);
      var id := |w.trace| + 1;
      var script := Drop(w.script, 2);
      var k := OkRun(script, |files|);
      var m := Attempted(script, |files|);
      var staged := k == |files|;
      var atExec := Drop(script, m);
      var atCleanup := if staged then Drop(atExec, 1) else atExec;
      && w'.trace == w.trace + [FromEnv] + [ContainerConfig(config)] + ArchiveEvents(id, files[..m])
                     + (if staged then [Exec(id, Join(command))] else []) + Teardown(id, atCleanup)
      && (staged && NextReply(atExec).Ok? ==> r == Made((NextReply(atExec).output, "")))
      && (staged && NextReply(atExec).Fail? ==>
            r == Made(("", "Failed to execute command: " + NextReply(atExec).detail)))
      && (!staged ==> r == Made(("", "Failed to copy file to container: " + NextReply(Drop(script, k)).detail)))
  {
    var w1 := Answer(w, FromEnv).1;
    var s0 := Snapshot(w1, None);
    var files := FilesToStage(inputFiles);
    var body := SandboxBody(config, command, files, s0);
    assert SandboxRun(config, command, inputFiles, w) == (Made(Fold(body.status)), CleanupStep(body.after).world);
    DropAdd(w.script, 1, 1);
    SandboxBodyTrace(config, command, files, s0);
    CleanupStepEffect(body.after);
  }

  function Stops(events: seq<Event>): nat {
    if |events| == 0 then 0 else (if events[0].Stop? then 1 else 0) + Stops(events[1..])
  }

  lemma {:induction false} StopsConcat(a: seq<Event>, b: seq<Event>)
    ensures Stops(a + b) == Stops(a) + Stops(b)
  {
    if |a| == 0 {
      assert a + b == b;
    } else {
      assert (a + b)[1..] == a[1..] + b;
      StopsConcat(a[1..], b);
    }
  }

  lemma {:induction false} NoStopsInArchives(id: nat, files: StagingMap)
    ensures Stops(ArchiveEvents(id, files)) == 0
  {
    if |files| > 0 {
      StopsConcat([ArchiveEvent(id, files[0])], ArchiveEvents(id, files[1..]));
      NoStopsInArchives(id, files[1..]);
    }
  }

  lemma StopsOfCreatedRun(t0: seq<Event>, a: seq<Event>, ex: seq<Event>, id: nat, script: seq<Reply>, e: Event)
    requires !e.Stop? && Stops(a) == 0 && Stops(ex) == 0
    ensures Stops(t0 + [FromEnv] + [e] + a + ex + Teardown(id, script)) == Stops(t0) + 1
  {
    var td := Teardown(id, script);
    StopsConcat(t0 + [FromEnv] + [e] + a + ex, td);
    StopsConcat(t0 + [FromEnv] + [e] + a, ex);
    StopsConcat(t0 + [FromEnv] + [e], a);
    StopsConcat(t0 + [FromEnv], [e]);
    StopsConcat(t0, [FromEnv]);
    assert Stops(td) == 1 by {
      StopsConcat([Stop(id)], td[1..]);
      assert td == [Stop(id)] + td[1..];
    }
  }

  /** Cleanup reaches the engine exactly once when a container was created, and never otherwise. */
  lemma SandboxRunStopsOnce(config: SandboxSettings, command: seq<string>, inputFiles: Option<StagingMap>, w: World)
    ensures var created := NextReply(w.script).Ok? && NextReply(Drop(w.script, 1)).Ok?;
      Stops(SandboxRun(config, command, inputFiles, w).1.trace) == Stops(w.trace) + (if created then 1 else 0)
  {
    var t := SandboxRun(config, command, inputFiles, w).1.trace;
    if NextReply(w.script).Ok? && NextReply(Drop(w.script, 1)).Ok? {
      SandboxRunTrace(config, command, inputFiles, w);
      var files := FilesToStage(inputFiles);
      var id := |w.trace| + 1;
      var script := Drop(w.script, 2);
      var m := Attempted(script, |files|);
      var staged := OkRun(script, |files|) == |files|;
      var ex: seq<Event> := if staged then [Exec(id, Join(command))] else [];
      var atExec := Drop(script, m);
      NoStopsInArchives(id, files[..m]);
      StopsOfCreatedRun(w.trace, ArchiveEvents(id, files[..m]), ex, id,
                        if staged then Drop(atExec, 1) else atExec, ContainerConfig(config));
    } else {
      SandboxRunEarlyFailures(config, command, inputFiles, w);
      StopsConcat(w.trace, [FromEnv]);
      StopsConcat(w.trace + [FromEnv], [ContainerConfig(config)]);
      assert [FromEnv, ContainerConfig(config)] == [FromEnv] + [ContainerConfig(config)];
    }
  }

  /** A client error message is none of the classifier's own texts. */
  lemma ClientMessage(prefix: string, detail: string)
    requires "Failed to " <= prefix
    ensures var msg := prefix + detail;
      "Failed to " <= msg && msg != "Command execution timed out" && !("Sandbox execution error: " <= msg)
  {
    var msg := prefix + detail;
    assert msg[0] == 'F';
  }

  /** Staging keeps the handle, and a failure is an upload error. */
  lemma {:induction false} StageAllFailures(s: Snapshot, files: StagingMap)
    requires s.container.Some?
    ensures var r := StageAll(s, files);
      && r.after.container == s.container
      && (r.status.Raised? ==> "Failed to copy file to container: " <= r.status.exc.message)
    decreases |files|
  {
    if |files| > 0 {
      var c := CopyToStep(s, files[0].0, files[0].1);
      if c.status.Done? {
        StageAllFailures(c.after, files[1..]);
      }
    }
  }

  /** Everything the try block of the sandbox path raises is a client error starting "Failed to ". */
  lemma SandboxBodyFailures(config: SandboxSettings, command: seq<string>, files: StagingMap, s: Snapshot)
    ensures var b := SandboxBody(config, command, files, s);
      b.status.Raised? ==> "Failed to " <= b.status.exc.message
  {
    var c := CreateStep(s, config);
    if c.status.Raised? {
      FailurePrefix("Failed to create container: ", NextReply(s.world.script).detail);
    } else {
      StageAllFailures(c.after, files);
      var st := StageAll(c.after, files);
      if st.status.Raised? {
        FailurePrefix("Failed to copy file to container: ", st.status.exc.message[34..]);
        assert st.status.exc.message == "Failed to copy file to container: " + st.status.exc.message[34..];
      } else if NextReply(st.after.world.script).Fail? {
        FailurePrefix("Failed to execute command: ", NextReply(st.after.world.script).detail);
      }
    }
  }

  lemma FailurePrefix(prefix: string, detail: string)
    requires |prefix| >= 10 && prefix[..10] == "Failed to "
    ensures "Failed to " <= prefix + detail
  {
    assert (prefix + detail)[..10] == prefix[..10];
  }

  /** Once connected, the sandbox path returns a pair whose stderr is empty or a client error message. */
  lemma ConnectedRunMessage(config: SandboxSettings, command: seq<string>, inputFiles: Option<StagingMap>, w: World)
    requires NextReply(w.script).Ok?
    ensures var r := SandboxRun(config, command, inputFiles, w).0;
      && r.Made?
      && (r.value.1 == "" || "Failed to " <= r.value.1)
      && (r.value.1 != "" ==> r.value.0 == "")
  {
    var w1 := Answer(w, FromEnv).1;
    var body := SandboxBody(config, command, FilesToStage(inputFiles), Snapshot(w1, None));
    assert SandboxRun(config, command, inputFiles, w).0 == Made(Fold(body.status));
    SandboxBodyFailures(config, command, FilesToStage(inputFiles), Snapshot(w1, None));
  }

  /**
   * What `safe_execute_kali_command` can return: only an engine-connection
   * failure gets a prefix ("Unknown error: "); every other failure comes back
   * as the sandbox client's own message, so the timeout and sandbox-error
   * clauses never produce a result.
   */
  lemma SafeExecuteResults(config: SandboxSettings, command: seq<string>, inputFiles: Option<StagingMap>, w: World)
    ensures var p := SafeExecuteOutcome(config, command, inputFiles, w).0;
      && (NextReply(w.script).Fail? ==> p == ("", "Unknown error: " + NextReply(w.script).detail))
      && (NextReply(w.script).Ok? ==> p.1 == "" || "Failed to " <= p.1)
      && (p.1 != "" ==> p.0 == "")
      && p.1 != "Command execution timed out"
      && !("Sandbox execution error: " <= p.1)
  {
    var run := SandboxRun(config, command, inputFiles, w).0;
    var p := SafeExecuteOutcome(config, command, inputFiles, w).0;
    assert p == match run case Made(q) => q case Threw(e) => ("", Describe(e));
    if NextReply(w.script).Fail? {
      assert run == Threw(EngineFailure(NextReply(w.script).detail));
      assert p.1[0] == 'U';
    } else {
      ConnectedRunMessage(config, command, inputFiles, w);
      if p.1 != "" {
        ClientMessage("Failed to ", p.1[10..]);
        assert p.1 == "Failed to " + p.1[10..];
      }
    }
  }

  /** Direct mode ignores the staging map and leaves the engine alone; safe mode takes the sandbox path. */
  lemma ExecuteDispatch(config: SandboxSettings, command: seq<string>, files1: Option<StagingMap>,
                        files2: Option<StagingMap>, host: seq<string> -> Process, w: World)
    ensures ExecuteSpec(false, config, command, files1, host, w) == ExecuteSpec(false, config, command, files2, host, w)
    ensures ExecuteSpec(false, config, command, files1, host, w) == (CommandRunner.RunCommand(command, host), w)
    ensures ExecuteSpec(true, config, command, files1, host, w) == SafeExecuteOutcome(config, command, files1, w)
  {
  }
}
