/** The network scanner: its runner policy and five command vectors. */
module Nmap {
  import opened Wrappers
  import opened Text
  import opened KaliCommand

  /** Network access, more memory and a longer time budget than the defaults. */
  function NmapCommand(): (p: Policy)
    ensures p.commandName == "nmap" && p.networkEnabled
    ensures p.memoryLimit == "2g" && p.timeout == 300
  {
    Policy("nmap", networkEnabled := true, memoryLimit := "2g", timeout := 300)
  }

  /** `nmap`, the option words, then the target; nothing is staged. */
  function Scan(options: seq<string>, target: string): Invocation {
    Invocation(NmapCommand(), ["nmap"] + options + [target], None)
  }

  function BasicScan(target: string): (inv: Invocation)
    ensures inv.policy == NmapCommand() && inv.inputFiles.None?
    ensures inv.command == ["nmap", target]
  {
    Scan([], target)
  }

  function IntenseScan(target: string): (inv: Invocation)
    ensures inv.policy == NmapCommand() && inv.inputFiles.None?
    ensures inv.command == ["nmap", "-T4", "-A", target]
  {
    Scan(["-T4", "-A"], target)
  }

  function StealthScan(target: string): (inv: Invocation)
    ensures inv.policy == NmapCommand() && inv.inputFiles.None?
    ensures inv.command == ["nmap", "-sS", target]
  {
    Scan(["-sS"], target)
  }

  function QuickScan(target: string): (inv: Invocation)
    ensures inv.policy == NmapCommand() && inv.inputFiles.None?
    ensures inv.command == ["nmap", "-T4", "-F", target]
  {
    Scan(["-T4", "-F"], target)
  }

  function VulnerabilityScan(target: string): (inv: Invocation)
    ensures inv.policy == NmapCommand() && inv.inputFiles.None?
    ensures inv.command == ["nmap", "-sV", "--script", "vuln", target]
  {
    Scan(["-sV", "--script", "vuln"], target)
  }

  lemma ScanSurvives(options: seq<string>, target: string)
    requires forall i :: 0 <= i < |options| ==> ' ' !in options[i]
    ensures SurvivesJoin(Scan(options, target).command) <==> ' ' !in target
  {
    var words := ["nmap"] + options;
    assert forall i :: 0 < i < |words| ==> words[i] == options[i - 1];
    WordsThenOperand(words, target);
  }

  /** A split on single spaces undoes the join of every vector exactly when the target has no space. */
  lemma NmapVectorsSurvive(target: string)
    ensures SurvivesJoin(BasicScan(target).command) <==> ' ' !in target
    ensures SurvivesJoin(IntenseScan(target).command) <==> ' ' !in target
    ensures SurvivesJoin(StealthScan(target).command) <==> ' ' !in target
    ensures SurvivesJoin(QuickScan(target).command) <==> ' ' !in target
    ensures SurvivesJoin(VulnerabilityScan(target).command) <==> ' ' !in target
  {
    ScanSurvives([], target);
    ScanSurvives(["-T4", "-A"], target);
    ScanSurvives(["-sS"], target);
    ScanSurvives(["-T4", "-F"], target);
    ScanSurvives(["-sV", "--script", "vuln"], target);
  }
}
