/** The symbol-listing tool: its runner policy and six command vectors. */
module Nm {
  import opened Wrappers
  import opened Text
  import opened KaliCommand

  /** No network, the default memory and time budget. */
  function NmCommand(): (p: Policy)
    ensures p.commandName == "nm" && !p.networkEnabled
    ensures p.memoryLimit == "1g" && p.timeout == 120
  {
    Policy("nm", networkEnabled := false, memoryLimit := "1g", timeout := 120)
  }

  /** `nm`, the option words, then the target; nothing is staged. */
  function Listing(options: seq<string>, target: string): Invocation {
    Invocation(NmCommand(), ["nm"] + options + [target], None)
  }

  function BasicSymbols(target: string): (inv: Invocation)
    ensures inv.policy == NmCommand() && inv.inputFiles.None?
    ensures inv.command == ["nm", target]
  {
    Listing([], target)
  }

  function DynamicSymbols(target: string): (inv: Invocation)
    ensures inv.policy == NmCommand() && inv.inputFiles.None?
    ensures inv.command == ["nm", "-D", target]
  {
    Listing(["-D"], target)
  }

  function DemangleSymbols(target: string): (inv: Invocation)
    ensures inv.policy == NmCommand() && inv.inputFiles.None?
    ensures inv.command == ["nm", "-C", target]
  {
    Listing(["-C"], target)
  }

  function NumericSort(target: string): (inv: Invocation)
    ensures inv.policy == NmCommand() && inv.inputFiles.None?
    ensures inv.command == ["nm", "-n", target]
  {
    Listing(["-n"], target)
  }

  function SizeSort(target: string): (inv: Invocation)
    ensures inv.policy == NmCommand() && inv.inputFiles.None?
    ensures inv.command == ["nm", "-S", target]
  {
    Listing(["-S"], target)
  }

  function UndefinedSymbols(target: string): (inv: Invocation)
    ensures inv.policy == NmCommand() && inv.inputFiles.None?
    ensures inv.command == ["nm", "-u", target]
  {
    Listing(["-u"], target)
  }

  lemma ListingSurvives(option: string, target: string)
    requires ' ' !in option
    ensures SurvivesJoin(Listing([option], target).command) <==> ' ' !in target
  {
    assert Listing([option], target).command == ["nm", option] + [target];
    WordsThenOperand(["nm", option], target);
  }

  /** A split on single spaces undoes the join of every vector exactly when the target has no space. */
  lemma NmVectorsSurvive(target: string)
    ensures SurvivesJoin(BasicSymbols(target).command) <==> ' ' !in target
    ensures SurvivesJoin(DynamicSymbols(target).command) <==> ' ' !in target
    ensures SurvivesJoin(DemangleSymbols(target).command) <==> ' ' !in target
    ensures SurvivesJoin(NumericSort(target).command) <==> ' ' !in target
    ensures SurvivesJoin(SizeSort(target).command) <==> ' ' !in target
    ensures SurvivesJoin(UndefinedSymbols(target).command) <==> ' ' !in target
  {
    WordsThenOperand(["nm"], target);
    ListingSurvives("-D", target);
    ListingSurvives("-C", target);
    ListingSurvives("-n", target);
    ListingSurvives("-S", target);
    ListingSurvives("-u", target);
  }
}
