/**
 * The container engine (the Docker daemon and its client library), seen
 * from outside: every request is recorded in a trace and answered by the
 * next reply of a script, so any sequence of successes and failures the
 * real engine could produce can be replayed.
 */
module Engine {

  /** An engine answer: success with an output, or an exception's text. */
  datatype Reply = Ok(output: string) | Fail(detail: string)

  /** A container handle; `id` is the position of its `Run` request in the trace. */
  datatype Container = Container(id: nat)

  /** The requests the sandbox makes of the engine. */
  datatype Event =
    | FromEnv                                                       // docker.from_env()
    | Run(image: string, memLimit: string, cpuLimit: real, networkMode: string)  // containers.run
    | PutArchive(id: nat, dir: string, name: string, source: string)  // tar + put_archive
    | Exec(id: nat, command: string)                                // exec_run
    | GetArchive(id: nat, path: string)                             // get_archive
    | Stop(id: nat)                                                 // container.stop
    | Remove(id: nat)                                               // container.remove

  datatype World = World(script: seq<Reply>, trace: seq<Event>)

  /** The next scripted reply; an exhausted script answers with plain success. */
  function NextReply(script: seq<Reply>): Reply {
    if |script| == 0 then Ok("") else script[0]
  }

  function Rest(script: seq<Reply>): seq<Reply> {
    if |script| == 0 then [] else script[1..]
  }

  /** The script after `m` requests. */
  function Drop(script: seq<Reply>, m: nat): seq<Reply> {
    if m == 0 then script else Drop(Rest(script), m - 1)
  }

  lemma {:induction false} DropAdd(script: seq<Reply>, a: nat, b: nat)
    ensures Drop(Drop(script, a), b) == Drop(script, a + b)
  {
    if a > 0 {
      DropAdd(Rest(script), a - 1, b);
    }
  }

  /** One request: recorded at the end of the trace, answered from the script. */
  function Answer(w: World, request: Event): (r: (Reply, World))
    ensures r.1.trace == w.trace + [request]
    ensures r.1.script == Drop(w.script, 1)
  {
    (NextReply(w.script), World(Rest(w.script), w.trace + [request]))
  }

  class DockerEngine {
    var script: seq<Reply>
    var trace: seq<Event>

    function State(): World
      reads this
    {
      World(script, trace)
    }

    constructor (script: seq<Reply>)
      ensures State() == World(script, [])
    {
      this.script := script;
      trace := [];
    }

    method Call(request: Event) returns (reply: Reply)
      modifies this
      ensures (reply, State()) == Answer(old(State()), request)
    {
      reply := NextReply(script);
      script := Rest(script);
      trace := trace + [request];
    }
  }
}
