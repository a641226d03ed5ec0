/** The printable-strings extractor: its runner policy and four command vectors. */
module Strings {
  import opened Wrappers
  import opened Text
  import opened PosixPath
  import opened Engine
  import opened KaliCommand

  /** No network, the default memory and time budget. */
  function StringsCommand(): (p: Policy)
    ensures p.commandName == "strings" && !p.networkEnabled
    ensures p.memoryLimit == "1g" && p.timeout == 120
  {
    Policy("strings", networkEnabled := false, memoryLimit := "1g", timeout := 120)
  }

  /** The one staging entry the basic action always passes. */
  const InputFileEntry: (string, string) := ("input_file", "/tmp/input_file")

  /**
   * `strings <target>`, staging the fixed entry; the bytes the caller
   * passes are never read.
   */
  function BasicStringsAction(target: string, inputFile: Option<seq<bv8>> := None): (inv: Invocation)
    ensures inv.policy == StringsCommand()
    ensures inv.command == ["strings", target]
    ensures inv.inputFiles == Some([InputFileEntry])
  {
    Invocation(StringsCommand(), ["strings", target], Some([InputFileEntry]))
  }

  /** The bytes argument has no effect on the request. */
  lemma BasicStringsIgnoresInput(target: string, a: Option<seq<bv8>>, b: Option<seq<bv8>>)
    ensures BasicStringsAction(target, a) == BasicStringsAction(target, b)
  {
  }

  /**
   * In the sandbox the entry becomes one upload of the name `input_file`
   * as the member `input_file` of the directory `/tmp`.
   */
  lemma BasicStringsUpload(target: string, inputFile: Option<seq<bv8>>, id: nat)
    ensures ArchiveEvents(id, FilesToStage(BasicStringsAction(target, inputFile).inputFiles))
         == [PutArchive(id, "/tmp", "input_file", "input_file")]
  {
    TmpInputFile();
    var files := FilesToStage(BasicStringsAction(target, inputFile).inputFiles);
    assert files == [InputFileEntry];
    assert files[1..] == [];
  }

  /** `strings -n <length> <target>`, the length written in decimal. */
  function MinLengthStringsAction(target: string, length: int := 6): (inv: Invocation)
    ensures inv.policy == StringsCommand() && inv.inputFiles.None?
    ensures inv.command == ["strings", "-n", IntToString(length), target]
    ensures |inv.command| == 4 && inv.command[..2] == ["strings", "-n"] && inv.command[3] == target
    ensures ParseInt(inv.command[2]) == Some(length)
    ensures SurvivesJoin(inv.command) <==> ' ' !in target
  {
    var command := ["strings", "-n", IntToString(length), target];
    IntToStringRoundTrip(length);
    WordsThenOperand(["strings", "-n", IntToString(length)], target);
    assert ["strings", "-n", IntToString(length)] + [target] == command;
    Invocation(StringsCommand(), command, None)
  }

  /** `strings -t <format> <target>`, hexadecimal offsets unless the caller names another radix. */
  function OffsetStringsAction(target: string, format: string := "x"): (inv: Invocation)
    ensures inv.policy == StringsCommand() && inv.inputFiles.None?
    ensures inv.command == ["strings", "-t", format, target]
    ensures SurvivesJoin(inv.command) <==> ' ' !in format && ' ' !in target
  {
    var command := ["strings", "-t", format, target];
    SplitJoin(command);
    assert command[2] == format && command[3] == target;
    Invocation(StringsCommand(), command, None)
  }

  /** `strings -e <encoding> <target>`, 8-bit strings unless the caller names another encoding. */
  function EncodingStringsAction(target: string, encoding: string := "S"): (inv: Invocation)
    ensures inv.policy == StringsCommand() && inv.inputFiles.None?
    ensures inv.command == ["strings", "-e", encoding, target]
    ensures SurvivesJoin(inv.command) <==> ' ' !in encoding && ' ' !in target
  {
    var command := ["strings", "-e", encoding, target];
    SplitJoin(command);
    assert command[2] == encoding && command[3] == target;
    Invocation(StringsCommand(), command, None)
  }
}
