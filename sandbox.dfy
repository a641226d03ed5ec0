/**
 * The sandbox lifecycle client: one optional container handle that
 * `Create` fills and `Cleanup` clears, guarded command execution and file
 * transfer, and the error taxonomy with the classification used by
 * `run_in_sandbox`.
 *
 * Each engine-facing operation is specified by a pure step function over a
 * `Snapshot` (the engine's world plus the handle); the methods of
 * `SandboxClient` are proved to behave exactly as those steps.
 */
module Sandbox {
  import opened Wrappers
  import opened PosixPath
  import opened Engine

  /** Container settings; the defaults are those of the settings constructor. */
  datatype SandboxSettings = SandboxSettings(
    image: string := "ubuntu-systemd:22.04",
    memoryLimit: string := "2g",
    cpuLimit: real := 1.0,
    networkEnabled: bool := true,
    networkMode: string := "bridge",
    timeout: int := 300)

  /** The exception hierarchy: three sandbox errors, and whatever else an engine call raises. */
  datatype Exception =
    | SandboxError(message: string)
    | SandboxTimeoutError(message: string)
    | SandboxResourceError(message: string)
    | EngineFailure(message: string)
  {
    /** `isinstance(e, SandboxError)`: the two subclasses are sandbox errors too. */
    predicate IsSandboxError() {
      !EngineFailure?
    }
  }

  /** How a client call ends: it returns a value, or it raises. */
  datatype Status = Done(value: string) | Raised(exc: Exception)

  /** What a client call can observe and change: the engine and the handle. */
  datatype Snapshot = Snapshot(world: World, container: Option<Container>)

  datatype Step = Step(status: Status, after: Snapshot)

  /** A value produced, or an exception that escaped. */
  datatype Made<+T> = Made(value: T) | Threw(exc: Exception)

  const NotCreated := "Container not created"

  lemma SettingsDefaults()
    ensures SandboxSettings() == SandboxSettings("ubuntu-systemd:22.04", "2g", 1.0, true, "bridge", 300)
  {
  }

  /** The `containers.run` request built from the settings. */
  function ContainerConfig(config: SandboxSettings): (e: Event)
    ensures e.Run? && e.image == config.image && e.memLimit == config.memoryLimit
    ensures e.cpuLimit == config.cpuLimit
    ensures e.networkMode == if config.networkEnabled then config.networkMode else "none"
  {
    Run(config.image, config.memoryLimit, config.cpuLimit,
        if config.networkEnabled then config.networkMode else "none")
  }

  /** The stored timeout never reaches the engine. */
  lemma TimeoutNotRead(config: SandboxSettings, t: int)
    ensures ContainerConfig(config) == ContainerConfig(config.(timeout := t))
  {
  }

  // ---------------------------------------------------------------------
  // The client operations as steps
  // ---------------------------------------------------------------------

  function CreateStep(s: Snapshot, config: SandboxSettings): Step {
    var (reply, w) := Answer(s.world, ContainerConfig(config));
    match reply
    case Ok(_) => Step(Done(""), Snapshot(w, Some(Container(|s.world.trace|))))
    case Fail(d) => Step(Raised(SandboxError("Failed to create container: " + d)), Snapshot(w, s.container))
  }

  function RunCommandStep(s: Snapshot, command: string): Step {
    match s.container
    case None => Step(Raised(SandboxError(NotCreated)), s)
    case Some(c) =>
      var (reply, w) := Answer(s.world, Exec(c.id, command));
      match reply
      case Ok(out) => Step(Done(out), Snapshot(w, s.container))
      case Fail(d) => Step(Raised(SandboxError("Failed to execute command: " + d)), Snapshot(w, s.container))
  }

  function CopyToStep(s: Snapshot, sourcePath: string, containerPath: string): Step {
    match s.container
    case None => Step(Raised(SandboxError(NotCreated)), s)
    case Some(c) =>
      var (reply, w) := Answer(s.world, PutArchive(c.id, Dirname(containerPath), Basename(containerPath), sourcePath));
      match reply
      case Ok(_) => Step(Done(""), Snapshot(w, s.container))
      case Fail(d) => Step(Raised(SandboxError("Failed to copy file to container: " + d)), Snapshot(w, s.container))
  }

  function CopyFromStep(s: Snapshot, containerPath: string, destPath: string): Step {
    match s.container
    case None => Step(Raised(SandboxError(NotCreated)), s)
    case Some(c) =>
      var (reply, w) := Answer(s.world, GetArchive(c.id, containerPath));
      match reply
      case Ok(_) => Step(Done(""), Snapshot(w, s.container))
      case Fail(d) => Step(Raised(SandboxError("Failed to copy file from container: " + d)), Snapshot(w, s.container))
  }

  /** Best effort: a failing stop or remove is swallowed and the handle stays. */
  function CleanupStep(s: Snapshot): Snapshot {
    match s.container
    case None => s
    case Some(c) =>
      var (stopped, w1) := Answer(s.world, Stop(c.id));
      if stopped.Fail? then Snapshot(w1, s.container)
      else
        var (removed, w2) := Answer(w1, Remove(c.id));
        if removed.Fail? then Snapshot(w2, s.container) else Snapshot(w2, None)
  }

  /** The requests a cleanup of container `id` makes, given the script it meets. */
  function Teardown(id: nat, script: seq<Reply>): seq<Event> {
    [Stop(id)] + if NextReply(script).Ok? then [Remove(id)] else []
  }

  // ---------------------------------------------------------------------
  // What each step promises
  // ---------------------------------------------------------------------

  lemma CreateStepEffect(s: Snapshot, config: SandboxSettings)
    ensures var r := CreateStep(s, config);
      && r.after.world.trace == s.world.trace + [ContainerConfig(config)]
      && r.after.world.script == Drop(s.world.script, 1)
      && (r.status.Done? <==> NextReply(s.world.script).Ok?)
      && (r.status.Done? ==> r.after.container == Some(Container(|s.world.trace|)))
      && (r.status.Raised? ==>
            r.status.exc == SandboxError("Failed to create container: " + NextReply(s.world.script).detail)
            && r.after.container == s.container)
  {
  }

  /** Without a handle the guarded operations raise and never reach the engine. */
  lemma GuardsWithoutContainer(s: Snapshot, command: string, path: string, dest: string)
    requires s.container.None?
    ensures RunCommandStep(s, command) == Step(Raised(SandboxError(NotCreated)), s)
    ensures CopyToStep(s, path, dest) == Step(Raised(SandboxError(NotCreated)), s)
    ensures CopyFromStep(s, path, dest) == Step(Raised(SandboxError(NotCreated)), s)
  {
  }

  lemma RunCommandStepEffect(s: Snapshot, command: string)
    requires s.container.Some?
    ensures var r := RunCommandStep(s, command);
      && r.after.world.trace == s.world.trace + [Exec(s.container.value.id, command)]
      && r.after.world.script == Drop(s.world.script, 1)
      && r.after.container == s.container
      && (NextReply(s.world.script).Ok? ==> r.status == Done(NextReply(s.world.script).output))
      && (NextReply(s.world.script).Fail? ==>
            r.status == Raised(SandboxError("Failed to execute command: " + NextReply(s.world.script).detail)))
  {
  }

  /** The file is uploaded into the destination's directory under a name without '/'. */
  lemma CopyToStepEffect(s: Snapshot, sourcePath: string, containerPath: string)
    requires s.container.Some?
    ensures var r := CopyToStep(s, sourcePath, containerPath);
      var e := r.after.world.trace[|s.world.trace|];
      && r.after.world.trace == s.world.trace + [e]
      && e == PutArchive(s.container.value.id, e.dir, e.name, sourcePath)
      && e.dir == Dirname(containerPath) && e.name == Basename(containerPath)
      && e.dir <= containerPath && '/' !in e.name && |e.dir| <= TailStart(containerPath)
      && containerPath == e.dir + containerPath[|e.dir|..TailStart(containerPath)] + e.name
      && r.after.container == s.container
      && (r.status.Done? <==> NextReply(s.world.script).Ok?)
      && (r.status.Raised? ==>
            r.status.exc == SandboxError("Failed to copy file to container: " + NextReply(s.world.script).detail))
  {
    PathSplitsAtLastSlash(containerPath);
    DirnameFacts(containerPath);
    BasenameFacts(containerPath);
  }

  lemma CopyFromStepEffect(s: Snapshot, containerPath: string, destPath: string)
    requires s.container.Some?
    ensures var r := CopyFromStep(s, containerPath, destPath);
      && r.after.world.trace == s.world.trace + [GetArchive(s.container.value.id, containerPath)]
      && r.after.container == s.container
      && (r.status.Done? <==> NextReply(s.world.script).Ok?)
      && (r.status.Raised? ==>
            r.status.exc == SandboxError("Failed to copy file from container: " + NextReply(s.world.script).detail))
  {
  }

  /**
   * Cleanup is a no-op without a handle; otherwise it stops, then removes,
   * and the handle is cleared only when both succeed.
   */
  lemma CleanupStepEffect(s: Snapshot)
    ensures s.container.None? ==> CleanupStep(s) == s
    ensures s.container.Some? ==>
      var r := CleanupStep(s);
      var t := Teardown(s.container.value.id, s.world.script);
      && r.world.trace == s.world.trace + t
      && r.world.script == Drop(s.world.script, |t|)
      && (r.container.None? <==> NextReply(s.world.script).Ok? && NextReply(Drop(s.world.script, 1)).Ok?)
      && (r.container.Some? ==> r.container == s.container)
  {
  }

  // ---------------------------------------------------------------------
  // The stateful client
  // ---------------------------------------------------------------------

  class SandboxClient {
    const engine: DockerEngine
    var container: Option<Container>

    function State(): Snapshot
      reads this, engine
    {
      Snapshot(engine.State(), container)
    }

    /** The part of construction that follows a successful `docker.from_env()`. */
    constructor (engine: DockerEngine)
      ensures this.engine == engine && container.None?
    {
      this.engine := engine;
      container := None;
    }

    method Create(config: SandboxSettings) returns (status: Status)
      modifies this, engine
      ensures Step(status, State()) == CreateStep(old(State()), config)
    {
      var id := |engine.trace|;
      var reply := engine.Call(ContainerConfig(config));
      if reply.Ok? {
        container := Some(Container(id));
        status := Done("");
      } else {
        status := Raised(SandboxError("Failed to create container: " + reply.detail));
      }
    }

    method RunCommand(command: string) returns (status: Status)
      modifies engine
      ensures Step(status, State()) == RunCommandStep(old(State()), command)
    {
      if container.None? {
        return Raised(SandboxError(NotCreated));
      }
      var reply := engine.Call(Exec(container.value.id, command));
      status := if reply.Ok? then Done(reply.output)
                else Raised(SandboxError("Failed to execute command: " + reply.detail));
    }

    method CopyToContainer(sourcePath: string, containerPath: string) returns (status: Status)
      modifies engine
      ensures Step(status, State()) == CopyToStep(old(State()), sourcePath, containerPath)
    {
      if container.None? {
        return Raised(SandboxError(NotCreated));
      }
      var reply := engine.Call(PutArchive(container.value.id, Dirname(containerPath), Basename(containerPath), sourcePath));
      status := if reply.Ok? then Done("")
                else Raised(SandboxError("Failed to copy file to container: " + reply.detail));
    }

    method CopyFromContainer(containerPath: string, destPath: string) returns (status: Status)
      modifies engine
      ensures Step(status, State()) == CopyFromStep(old(State()), containerPath, destPath)
    {
      if container.None? {
        return Raised(SandboxError(NotCreated));
      }
      var reply := engine.Call(GetArchive(container.value.id, containerPath));
      status := if reply.Ok? then Done("")
                else Raised(SandboxError("Failed to copy file from container: " + reply.detail));
    }

    method Cleanup()
      modifies this, engine
      ensures State() == CleanupStep(old(State()))
    {
      if container.Some? {
        var stopped := engine.Call(Stop(container.value.id));
        if stopped.Ok? {
          var removed := engine.Call(Remove(container.value.id));
          if removed.Ok? {
            container := None;
          }
        }
      }
    }
  }

  /** `create_sandbox_client()`: connecting to the engine may raise; nothing catches it here. */
  method CreateSandboxClient(engine: DockerEngine) returns (r: Made<SandboxClient>)
    modifies engine
    ensures engine.State() == Answer(old(engine.State()), FromEnv).1
    ensures r.Made? <==> NextReply(old(engine.script)).Ok?
    ensures r.Threw? ==> r.exc == EngineFailure(NextReply(old(engine.script)).detail)
    ensures r.Made? ==> fresh(r.value) && r.value.engine == engine && r.value.container.None?
  {
    var reply := engine.Call(FromEnv);
    if reply.Fail? {
      return Threw(EngineFailure(reply.detail));
    }
    var client := new SandboxClient(engine);
    r := Made(client);
  }

  // ---------------------------------------------------------------------
  // run_in_sandbox
  // ---------------------------------------------------------------------

  /** The except clauses in order: timeout, then any sandbox error, then anything else. */
  function Describe(e: Exception): (msg: string) {
    if e.SandboxTimeoutError? then "Command execution timed out"
    else if e.IsSandboxError() then "Sandbox execution error: " + e.message
    else "Unknown error: " + e.message
  }

  lemma DescribeClassifies(e: Exception)
    ensures e.SandboxTimeoutError? ==> Describe(e) == "Command execution timed out"
    ensures e.SandboxError? || e.SandboxResourceError? ==> Describe(e) == "Sandbox execution error: " + e.message
    ensures e.EngineFailure? ==> Describe(e) == "Unknown error: " + e.message
  {
  }

  /** The protected part of `run_in_sandbox`: create, then run. */
  function RunInSandboxBody(command: string, s: Snapshot): Step {
    var c := CreateStep(s, SandboxSettings());
    if c.status.Raised? then c else RunCommandStep(c.after, command)
  }

  /** Result and final world of `run_in_sandbox`; cleanup runs in `finally`. */
  function RunInSandboxOutcome(command: string, w: World): (Made<string>, World) {
    var (connected, w1) := Answer(w, FromEnv);
    if connected.Fail? then (Threw(EngineFailure(connected.detail)), w1)
    else
      var body := RunInSandboxBody(command, Snapshot(w1, None));
      var result := match body.status
        case Done(out) => out
        case Raised(e) => Describe(e);
      (Made(result), CleanupStep(body.after).world)
  }

  method RunInSandbox(command: string, engine: DockerEngine) returns (r: Made<string>)
    modifies engine
    ensures (r, engine.State()) == RunInSandboxOutcome(command, old(engine.State()))
  {
    var made := CreateSandboxClient(engine);
    if made.Threw? {
      return Threw(made.exc);
    }
    var client := made.value;
    var status := client.Create(SandboxSettings());
    if status.Done? {
      status := client.RunCommand(command);
    }
    r := Made(match status case Done(out) => out case Raised(e) => Describe(e));
    client.Cleanup();
  }

  /** Only plain sandbox errors are raised inside, so the timeout clause never fires. */
  lemma RunInSandboxRaisesOnlySandboxErrors(command: string, s: Snapshot)
    ensures var body := RunInSandboxBody(command, s);
      body.status.Raised? ==> body.status.exc.SandboxError? && "Failed to " <= body.status.exc.message
  {
  }

  /** A refused connection or a failed creation ends `run_in_sandbox` early. */
  lemma RunInSandboxEarly(command: string, w: World)
    requires NextReply(w.script).Fail? || NextReply(Drop(w.script, 1)).Fail?
    ensures var (r, w') := RunInSandboxOutcome(command, w);
      var s1 := Drop(w.script, 1);
      && (NextReply(w.script).Fail? ==>
            r == Threw(EngineFailure(NextReply(w.script).detail)) && w'.trace == w.trace + [FromEnv])
      && (NextReply(w.script).Ok? ==>
            r == Made("Sandbox execution error: " + ("Failed to create container: " + NextReply(s1).detail))
            && w'.trace == w.trace + [FromEnv] + [ContainerConfig(SandboxSettings())])
  {
    var (connected, w1) := Answer(w, FromEnv);
    if connected.Ok? {
      var s0 := Snapshot(w1, None);
      CreateStepEffect(s0, SandboxSettings());
      var c := CreateStep(s0, SandboxSettings());
      assert RunInSandboxBody(command, s0) == c;
      CleanupStepEffect(c.after);
    }
  }

  /** With a container: connect, create, exec, then stop and remove that container. */
  lemma RunInSandboxCreated(command: string, w: World)
    requires NextReply(w.script).Ok? && NextReply(Drop(w.script, 1)).Ok?
    ensures var (r, w') := RunInSandboxOutcome(command, w);
      var s2 := Drop(w.script, 2);
      var id := |w.trace| + 1;
      && w'.trace == w.trace + [FromEnv] + [ContainerConfig(SandboxSettings())] + [Exec(id, command)]
                     + Teardown(id, Drop(w.script, 3))
      && (NextReply(s2).Ok? ==> r == Made(NextReply(s2).output))
      && (NextReply(s2).Fail? ==>
            r == Made("Sandbox execution error: " + ("Failed to execute command: " + NextReply(s2).detail)))
  {
    var w1 := Answer(w, FromEnv).1;
    var s0 := Snapshot(w1, None);
    CreateStepEffect(s0, SandboxSettings());
    var c := CreateStep(s0, SandboxSettings());
    DropAdd(w.script, 1, 1);
    RunCommandStepEffect(c.after, command);
    var body := RunCommandStep(c.after, command);
    assert RunInSandboxBody(command, s0) == body;
    DropAdd(w.script, 2, 1);
    CleanupStepEffect(body.after);
  }

  /**
   * The whole of `run_in_sandbox`: the trace it leaves, the cleanup it
   * performs exactly when a container exists, and its result.
   */
  lemma RunInSandboxTrace(command: string, w: World)
    ensures var (r, w') := RunInSandboxOutcome(command, w);
      var create := ContainerConfig(SandboxSettings());
      var s1 := Drop(w.script, 1);
      var s2 := Drop(w.script, 2);
      var id := |w.trace| + 1;
      && (NextReply(w.script).Fail? ==>
            r == Threw(EngineFailure(NextReply(w.script).detail)) && w'.trace == w.trace + [FromEnv])
      && (NextReply(w.script).Ok? && NextReply(s1).Fail? ==>
            r == Made("Sandbox execution error: " + ("Failed to create container: " + NextReply(s1).detail))
            && w'.trace == w.trace + [FromEnv] + [create])
      && (NextReply(w.script).Ok? && NextReply(s1).Ok? ==>
            && w'.trace == w.trace + [FromEnv] + [create] + [Exec(id, command)] + Teardown(id, Drop(w.script, 3))
            && (NextReply(s2).Ok? ==> r == Made(NextReply(s2).output))
            && (NextReply(s2).Fail? ==>
                  r == Made("Sandbox execution error: " + ("Failed to execute command: " + NextReply(s2).detail))))
  {
    if NextReply(w.script).Fail? || NextReply(Drop(w.script, 1)).Fail? {
      RunInSandboxEarly(command, w);
    } else {
      RunInSandboxCreated(command, w);
    }
  }
}
