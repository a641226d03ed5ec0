/** The route tracer: its runner policy and its one command vector. */
module Traceroute {
  import opened Wrappers
  import opened Text
  import opened KaliCommand

  /** Network access, the default memory and time budget. */
  function TracerouteCommand(): (p: Policy)
    ensures p.commandName == "traceroute" && p.networkEnabled
    ensures p.memoryLimit == "1g" && p.timeout == 120
  {
    Policy("traceroute", networkEnabled := true, memoryLimit := "1g", timeout := 120)
  }

  /** The vector names the program `tracert`, not the policy's `traceroute`. */
  function TracerouteAction(target: string): (inv: Invocation)
    ensures inv.policy == TracerouteCommand() && inv.inputFiles.None?
    ensures inv.command == ["tracert", target]
    ensures inv.command[0] != inv.policy.commandName
    ensures SurvivesJoin(inv.command) <==> ' ' !in target
  {
    WordsThenOperand(["tracert"], target);
    assert ["tracert"] + [target] == ["tracert", target];
    assert "tracert" != "traceroute" by { assert |"tracert"| == 7 && |"traceroute"| == 10; }
    Invocation(TracerouteCommand(), ["tracert", target], None)
  }
}
