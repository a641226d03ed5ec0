/** The object-file dumper: its runner policy and five command vectors. */
module Objdump {
  import opened Wrappers
  import opened Text
  import opened KaliCommand

  /** No network, the default memory and time budget. */
  function ObjdumpCommand(): (p: Policy)
    ensures p.commandName == "objdump" && !p.networkEnabled
    ensures p.memoryLimit == "1g" && p.timeout == 120
  {
    Policy("objdump", networkEnabled := false, memoryLimit := "1g", timeout := 120)
  }

  /** `objdump`, one option word, then the target; nothing is staged. */
  function Dump(option: string, target: string): Invocation {
    Invocation(ObjdumpCommand(), ["objdump", option, target], None)
  }

  function FileHeadersAction(target: string): (inv: Invocation)
    ensures inv.policy == ObjdumpCommand() && inv.inputFiles.None?
    ensures inv.command == ["objdump", "-f", target]
  {
    Dump("-f", target)
  }

  /** Disassembly of one section, `.text` unless the caller names another. */
  function DisassembleAction(target: string, section: string := ".text"): (inv: Invocation)
    ensures inv.policy == ObjdumpCommand() && inv.inputFiles.None?
    ensures inv.command == ["objdump", "-d", "-j", section, target]
    ensures SurvivesJoin(inv.command) <==> ' ' !in section && ' ' !in target
  {
    var command := ["objdump", "-d", "-j", section, target];
    SplitJoin(command);
    assert command[3] == section && command[4] == target;
    Invocation(ObjdumpCommand(), command, None)
  }

  function SymbolTableAction(target: string): (inv: Invocation)
    ensures inv.policy == ObjdumpCommand() && inv.inputFiles.None?
    ensures inv.command == ["objdump", "-t", target]
  {
    Dump("-t", target)
  }

  function SectionHeadersAction(target: string): (inv: Invocation)
    ensures inv.policy == ObjdumpCommand() && inv.inputFiles.None?
    ensures inv.command == ["objdump", "-h", target]
  {
    Dump("-h", target)
  }

  function FullContentsAction(target: string): (inv: Invocation)
    ensures inv.policy == ObjdumpCommand() && inv.inputFiles.None?
    ensures inv.command == ["objdump", "-x", target]
  {
    Dump("-x", target)
  }

  lemma DumpSurvives(option: string, target: string)
    requires ' ' !in option
    ensures SurvivesJoin(Dump(option, target).command) <==> ' ' !in target
  {
    assert Dump(option, target).command == ["objdump", option] + [target];
    WordsThenOperand(["objdump", option], target);
  }

  /** A split on single spaces undoes the join of the fixed vectors exactly when the target has no space. */
  lemma ObjdumpVectorsSurvive(target: string)
    ensures SurvivesJoin(FileHeadersAction(target).command) <==> ' ' !in target
    ensures SurvivesJoin(SymbolTableAction(target).command) <==> ' ' !in target
    ensures SurvivesJoin(SectionHeadersAction(target).command) <==> ' ' !in target
    ensures SurvivesJoin(FullContentsAction(target).command) <==> ' ' !in target
    ensures SurvivesJoin(DisassembleAction(target).command) <==> ' ' !in target
  {
    DumpSurvives("-f", target);
    DumpSurvives("-t", target);
    DumpSurvives("-h", target);
    DumpSurvives("-x", target);
    assert ' ' !in ".text";
  }
}
