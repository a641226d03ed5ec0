/** The packet-analyzer tool: its runner policy and six command vectors. */
module Wireshark {
  import opened Wrappers
  import opened Text
  import opened KaliCommand

  /** Network access, more memory and a longer time budget than the defaults. */
  function TsharkCommand(): (p: Policy)
    ensures p.commandName == "tshark" && p.networkEnabled
    ensures p.memoryLimit == "2g" && p.timeout == 300
  {
    Policy("tshark", networkEnabled := true, memoryLimit := "2g", timeout := 300)
  }

  /** The `duration:N` argument: no space, and N reads back. */
  lemma DurationArgument(duration: int)
    ensures var arg := "duration:" + IntToString(duration);
      "duration:" <= arg && ParseInt(arg[9..]) == Some(duration) && ' ' !in arg
  {
    var arg := "duration:" + IntToString(duration);
    IntToStringRoundTrip(duration);
    assert arg[9..] == IntToString(duration);
    assert ' ' !in "duration:";
  }

  /** Live capture; the capture filter is appended only when it is non-empty. */
  method CaptureLiveAction(interface: string, duration: int := 30, filter: string := "") returns (inv: Invocation)
    ensures inv.policy == TsharkCommand() && inv.inputFiles.None?
    ensures |inv.command| == (if filter == "" then 5 else 7)
    ensures inv.command[..5] == ["tshark", "-i", interface, "-a", "duration:" + IntToString(duration)]
    ensures filter != "" ==> inv.command[5..] == ["-f", filter]
    ensures "duration:" <= inv.command[4] && ParseInt(inv.command[4][9..]) == Some(duration)
    ensures SurvivesJoin(inv.command) <==> ' ' !in interface && ' ' !in filter
  {
    var arg := "duration:" + IntToString(duration);
    DurationArgument(duration);
    var command := ["tshark", "-i", interface, "-a", arg];
    if filter != "" {
      command := command + ["-f", filter];
    }
    inv := Invocation(TsharkCommand(), command, None);
    SplitJoin(command);
    assert command[2] == interface && command[4] == arg;
    if filter != "" {
      assert command[5] == "-f" && command[6] == filter;
    }
  }

  /** Reading a capture file; the display filter is appended only when it is non-empty. */
  method AnalyzePcapAction(pcapFile: string, displayFilter: string := "") returns (inv: Invocation)
    ensures inv.policy == TsharkCommand() && inv.inputFiles.None?
    ensures |inv.command| == (if displayFilter == "" then 3 else 5)
    ensures inv.command[..3] == ["tshark", "-r", pcapFile]
    ensures displayFilter != "" ==> inv.command[3..] == ["-Y", displayFilter]
    ensures SurvivesJoin(inv.command) <==> ' ' !in pcapFile && ' ' !in displayFilter
  {
    var command := ["tshark", "-r", pcapFile];
    if displayFilter != "" {
      command := command + ["-Y", displayFilter];
    }
    inv := Invocation(TsharkCommand(), command, None);
    SplitJoin(command);
    if displayFilter != "" {
      assert command[3] == "-Y" && command[4] == displayFilter;
    }
  }

  function ExtractHttpAction(pcapFile: string): (inv: Invocation)
    ensures inv.policy == TsharkCommand() && inv.inputFiles.None?
    ensures inv.command == ["tshark", "-r", pcapFile, "-Y", "http", "-T", "fields",
                            "-e", "http.request.method", "-e", "http.request.uri"]
  {
    Invocation(TsharkCommand(), ["tshark", "-r", pcapFile, "-Y", "http", "-T", "fields",
                                 "-e", "http.request.method", "-e", "http.request.uri"], None)
  }

  /** The three statistics reports differ only in the `-z` argument. */
  function Statistics(pcapFile: string, report: string): Invocation {
    Invocation(TsharkCommand(), ["tshark", "-r", pcapFile, "-q", "-z", report], None)
  }

  function ProtocolHierarchyAction(pcapFile: string): (inv: Invocation)
    ensures inv.policy == TsharkCommand() && inv.inputFiles.None?
    ensures inv.command == ["tshark", "-r", pcapFile, "-q", "-z", "io,phs"]
  {
    Statistics(pcapFile, "io,phs")
  }

  function ConversationStatisticsAction(pcapFile: string): (inv: Invocation)
    ensures inv.policy == TsharkCommand() && inv.inputFiles.None?
    ensures inv.command == ["tshark", "-r", pcapFile, "-q", "-z", "conv,ip"]
  {
    Statistics(pcapFile, "conv,ip")
  }

  function ExpertInfoAction(pcapFile: string): (inv: Invocation)
    ensures inv.policy == TsharkCommand() && inv.inputFiles.None?
    ensures inv.command == ["tshark", "-r", pcapFile, "-q", "-z", "expert"]
  {
    Statistics(pcapFile, "expert")
  }

  lemma StatisticsSurvives(pcapFile: string, report: string)
    requires ' ' !in report
    ensures SurvivesJoin(Statistics(pcapFile, report).command) <==> ' ' !in pcapFile
  {
    var c := Statistics(pcapFile, report).command;
    SplitJoin(c);
    assert c[2] == pcapFile && c[5] == report;
  }

  /** The option words after the file name in the HTTP extraction vector. */
  const HttpFields: seq<string> :=
    ["-Y", "http", "-T", "fields", "-e", "http.request.method", "-e", "http.request.uri"]

  lemma HttpFieldsSpaceFree()
    ensures forall i :: 0 <= i < |HttpFields| ==> ' ' !in HttpFields[i]
  {
    assert forall i :: 0 <= i < |HttpFields| ==> HttpFields[i] in HttpFields;
  }

  lemma ExtractHttpSurvives(pcapFile: string)
    ensures SurvivesJoin(ExtractHttpAction(pcapFile).command) <==> ' ' !in pcapFile
  {
    assert ExtractHttpAction(pcapFile).command == ["tshark", "-r"] + [pcapFile] + HttpFields;
    HttpFieldsSpaceFree();
    WordsAroundOperand(["tshark", "-r"], pcapFile, HttpFields);
  }

  /**
   * A split on single spaces undoes the join of the four fixed vectors
   * exactly when the file name has no space.
   */
  lemma TsharkFileVectors(pcapFile: string)
    ensures SurvivesJoin(ExtractHttpAction(pcapFile).command) <==> ' ' !in pcapFile
    ensures SurvivesJoin(ProtocolHierarchyAction(pcapFile).command) <==> ' ' !in pcapFile
    ensures SurvivesJoin(ConversationStatisticsAction(pcapFile).command) <==> ' ' !in pcapFile
    ensures SurvivesJoin(ExpertInfoAction(pcapFile).command) <==> ' ' !in pcapFile
  {
    ExtractHttpSurvives(pcapFile);
    StatisticsSurvives(pcapFile, "io,phs");
    StatisticsSurvives(pcapFile, "conv,ip");
    StatisticsSurvives(pcapFile, "expert");
  }

  /** The capture-filter example of the tool's own documentation does not survive the join. */
  method CaptureFilterWithSpace() returns (inv: Invocation)
    ensures |inv.command| == 7 && inv.command[5..] == ["-f", "port 80"]
    ensures !SurvivesJoin(inv.command)
  {
    assert "port 80" != "" by { assert |"port 80"| == 7; }
    inv := CaptureLiveAction("eth0", 30, "port 80");
    assert ' ' in "port 80" by { assert "port 80"[4] == ' '; }
  }
}
