# Kali tool execution dispatcher — a Dafny model

This project models the execution core of a server that exposes Kali Linux
analysis tools (tshark, strings, nm, objdump, nmap, traceroute). Each tool
action builds an argument vector and hands it to a `CommandRunner`. That
runner either spawns the vector directly on the host, or, in safe mode,
runs it inside a short-lived Docker container:

1. connect to the engine;
2. create a container from the Kali image with the tool's memory and network limits;
3. upload the input files;
4. execute the space-joined vector;
5. clean up in every case: stop the container if one was created, and remove it only if the stop succeeded.

The safe-mode flag comes from the `IS_SAFE` environment variable. Every
failure comes back as an `("", message)` pair.

Modules:

- `Wrappers`: `Option`.
- `Text`: the space join, and a split on single spaces that undoes it for a non-empty vector of space-free words; decimal
  rendering and parsing of integers, ASCII lower-casing.
- `PosixPath`: `os.path.basename` and `os.path.dirname`.
- `Engine`: the Docker engine as an object with a script of replies and a trace of
  requests. `DockerEngine.Call` appends one request and consumes one reply.
  An exhausted script answers `Ok("")`.
- `Sandbox`:
  - the settings record and the exception hierarchy;
  - the `SandboxClient` class, whose methods are proved equal to pure step
    functions over a `Snapshot` (engine world plus container handle);
  - `create_sandbox_client` and `run_in_sandbox`.
- `KaliCommand`: the runner policy, the `CommandRunner` class
  (`run_command`, `run_with_sandbox` with its staging loop,
  `safe_execute_kali_command`, `execute`), and the whole-run lemmas.
- `Wireshark`, `Strings`, `Nm`, `Objdump`, `Nmap`, `Traceroute`: each
  tool's policy and its command-vector builders.

A container's id is the position of its `Run` request in the engine trace.
So "the same container is stopped and removed" is a statement about ids in the trace.

## Dead handlers in the code

The model follows the code. Two of the handlers in `safe_execute_kali_command` can never run.

- **Creation failure.** The handler at src/kali_mcps/base/kali_command.py:83-84
  would give a failing container creation in safe mode a stderr prefixed
  `Sandbox execution error: `. That handler is dead code. Instead,
  `run_with_sandbox` (src/kali_mcps/base/kali_command.py:66-67)
  catches every exception itself and returns `("", str(e))`. So the sandbox
  error surfaces unprefixed, as `Failed to create container: <detail>`.
- **The other except clauses.** `safe_execute_kali_command` sees no
  exception except one raised by `create_sandbox_client()`, which runs before
  the `try`. That one is not a sandbox error, so it becomes
  `Unknown error: <detail>`.
- **Timeout.** The timeout result `Command execution timed out` can never be
  produced: nothing raises `SandboxTimeoutError`, and the configured timeout
  is never passed to the engine.

`KaliCommand.SafeExecuteResults`, `Sandbox.TimeoutNotRead` and
`Sandbox.RunInSandboxRaisesOnlySandboxErrors` state these facts.

## Model

| member | source | states |
|---|---|---|
| Sandbox.SettingsDefaults | src/sandbox.py:11-25 | the settings defaults are image ubuntu-systemd:22.04, 2g memory, 1.0 CPU, networking on, bridge mode, 300 s |
| Sandbox.ContainerConfig | src/sandbox.py:50-56 | the run request carries the image, the memory limit and the CPU limit; the network mode is the configured one when networking is enabled and "none" otherwise |
| Sandbox.TimeoutNotRead | src/sandbox.py:46-62 | the container request does not depend on the timeout setting |
| Sandbox.DescribeClassifies | src/sandbox.py:154-159 | the except clauses classify in order: timeout, then any sandbox error (the base class and both subclasses), then anything else as "Unknown error: " |
| Sandbox.CreateStepEffect | src/sandbox.py:46-62 | creation makes exactly one run request; it succeeds iff the engine accepts; success sets the handle to the new container; failure raises "Failed to create container: " + detail and keeps the handle |
| Sandbox.GuardsWithoutContainer | src/sandbox.py:66-110 | without a container, run_command, copy_to_container and copy_from_container raise "Container not created" and change nothing |
| Sandbox.RunCommandStepEffect | src/sandbox.py:64-73 | one exec request on the held container; the result is the engine's output, or a raise of "Failed to execute command: " + detail |
| Sandbox.CopyToStepEffect | src/sandbox.py:75-100 | one upload into the held container; the directory is a prefix of the destination, the member name contains no '/', and the destination splits into directory, slashes and name; failure raises "Failed to copy file to container: " + detail |
| Sandbox.CopyFromStepEffect | src/sandbox.py:102-125 | one archive fetch of the given path; succeeds iff the engine accepts; failure raises "Failed to copy file from container: " + detail |
| Sandbox.CleanupStepEffect | src/sandbox.py:127-136 | without a container nothing happens; otherwise stop, then remove only if the stop succeeded; the handle is cleared iff both succeed and is otherwise kept (errors are swallowed) |
| Sandbox.SandboxClient.constructor | src/sandbox.py:42-44 | a new client holds the given engine and no container |
| Sandbox.SandboxClient.Create | src/sandbox.py:46-62 | the new engine state, handle and status are exactly those of the creation step |
| Sandbox.SandboxClient.RunCommand | src/sandbox.py:64-73 | the engine state and status are exactly those of the run step; the handle is untouched |
| Sandbox.SandboxClient.CopyToContainer | src/sandbox.py:75-100 | the engine state and status are exactly those of the upload step |
| Sandbox.SandboxClient.CopyFromContainer | src/sandbox.py:102-125 | the engine state and status are exactly those of the fetch step |
| Sandbox.SandboxClient.Cleanup | src/sandbox.py:127-136 | the engine state and handle are exactly those of the cleanup step |
| Sandbox.CreateSandboxClient | src/sandbox.py:138-140 | one connection request; a refused connection escapes as a non-sandbox exception; otherwise a fresh client with no container |
| Sandbox.RunInSandbox | src/sandbox.py:145-161 | the result and the final engine state equal the outcome function of run_in_sandbox |
| Sandbox.RunInSandboxRaisesOnlySandboxErrors | src/sandbox.py:150-153 | everything raised inside the try is a plain SandboxError whose message starts "Failed to ", so the timeout clause is dead |
| Sandbox.RunInSandboxEarly | src/sandbox.py:147-161 | a refused connection escapes with only the connection request made; a failed creation yields "Sandbox execution error: Failed to create container: " + detail and no cleanup request |
| Sandbox.RunInSandboxCreated | src/sandbox.py:147-161 | with a container the trace is connect, create, exec, then stop and remove of that container; the result is the output or the prefixed execution error |
| Sandbox.RunInSandboxTrace | src/sandbox.py:145-161 | a refused connection escapes with no further request; a failed creation gives "Sandbox execution error: Failed to create container: " + detail and no cleanup; otherwise the trace is connect, create, exec, then stop and remove of that same container, and the result is the output or "Sandbox execution error: Failed to execute command: " + detail |
| KaliCommand.PolicyDefaults | src/kali_mcps/base/kali_command.py:9-10 | the runner defaults are no network, 1g memory, 120 s |
| KaliCommand.SafeFlag | src/kali_mcps/base/kali_command.py:23 | safe mode is on iff IS_SAFE is set and equals "true" ignoring case; an unset variable reads as "false" |
| KaliCommand.SafeFlagExamples | src/kali_mcps/base/kali_command.py:23 | "true", "TRUE" and "True" enable safe mode; unset, "false", "1" and " true" do not |
| KaliCommand.KaliSettings | src/kali_mcps/base/kali_command.py:46-52 | the sandbox settings use the Kali image, one CPU, the runner's memory, network and timeout, and the default bridge mode |
| KaliCommand.KaliContainerRequest | src/kali_mcps/base/kali_command.py:46-55 | the container request is the Kali image with the runner's memory limit and 1.0 CPU, bridged or without network, and it does not depend on the timeout |
| KaliCommand.CommandRunner.constructor | src/kali_mcps/base/kali_command.py:9-23 | the runner stores the policy's four fields and reads the safe flag once |
| KaliCommand.CommandRunner.RunCommand | src/kali_mcps/base/kali_command.py:25-37 | the direct path returns the spawned process's stdout and stderr, or ("", error text) when spawning fails |
| KaliCommand.CommandRunner.RunWithSandbox | src/kali_mcps/base/kali_command.py:39-69 | the result and final engine state equal the sandbox-run function: connect, create, stage the entries in order until one fails, run the joined vector, fold to a pair, clean up in every case |
| KaliCommand.CommandRunner.SafeExecuteKaliCommand | src/kali_mcps/base/kali_command.py:71-86 | the result and engine state equal the sandbox run with an escaping exception classified into a message |
| KaliCommand.CommandRunner.Execute | src/kali_mcps/base/kali_command.py:88-98 | safe mode takes the sandbox path and otherwise the host path, with the engine untouched |
| KaliCommand.Perform | src/kali_mcps/nm/actions.py:13-15 | an action builds its runner from the policy and the environment, then executes its vector and staging map |
| KaliCommand.OkRun | src/kali_mcps/base/kali_command.py:58-60 | the count of leading accepted uploads: at most the number of entries, every reply before it is an acceptance, and the reply at it, if within the entries, is a refusal |
| KaliCommand.Attempted | src/kali_mcps/base/kali_command.py:58-60 | no more uploads are attempted than there are entries |
| KaliCommand.CopyToStepIsArchive | src/kali_mcps/base/kali_command.py:59-60 | staging one (local, container) entry is a single upload of the local path into the container path's directory under its basename |
| KaliCommand.StageRequestsOk | src/kali_mcps/base/kali_command.py:58-60 | an accepted first upload followed by the rest of the staging makes that upload, then the rest's requests |
| KaliCommand.StageRequestsFail | src/kali_mcps/base/kali_command.py:58-60 | a refused first upload ends staging after that one request |
| KaliCommand.StageAllRequests | src/kali_mcps/base/kali_command.py:58-60 | staging makes the upload requests in map order up to and including the first refused one, and keeps the handle |
| KaliCommand.StageAllStatus | src/kali_mcps/base/kali_command.py:58-60 | staging succeeds iff every entry was accepted; a failure carries the first refusal's detail |
| KaliCommand.StageAllFailures | src/kali_mcps/base/kali_command.py:58-60 | staging keeps the handle, and whatever it raises is an upload error |
| KaliCommand.StageAllTrace | src/kali_mcps/base/kali_command.py:58-60 | staging uploads the entries in map order up to and including the first refused one; it succeeds iff every entry was accepted; the failure message carries the refusal's detail |
| KaliCommand.SandboxRunEarlyFailures | src/kali_mcps/base/kali_command.py:53-67 | a refused connection escapes before the try; a failed creation returns ("", "Failed to create container: " + detail) and makes no cleanup request |
| KaliCommand.SandboxBodyTrace | src/kali_mcps/base/kali_command.py:54-67 | after creation: the uploads, then the exec of the joined vector only if all uploads succeeded, and the resulting status |
| KaliCommand.SandboxBodyFailures | src/kali_mcps/base/kali_command.py:54-65 | everything raised inside the try is a client error whose message starts "Failed to " |
| KaliCommand.SandboxRunTrace | src/kali_mcps/base/kali_command.py:39-69 | with a container, the trace is connect, create, uploads in order, the exec of the joined vector if staging succeeded, then stop and remove of that container; the pair is (output, ""), or ("", message) for the failing step |
| KaliCommand.StopsConcat | src/kali_mcps/base/kali_command.py:68-69 | stop requests count additively over a concatenated trace |
| KaliCommand.NoStopsInArchives | src/kali_mcps/base/kali_command.py:58-60 | staging makes no stop request |
| KaliCommand.StopsOfCreatedRun | src/kali_mcps/base/kali_command.py:54-69 | a run that created its container adds exactly one stop request |
| KaliCommand.SandboxRunStopsOnce | src/kali_mcps/base/kali_command.py:68-69 | cleanup issues exactly one stop when a container was created and none otherwise |
| KaliCommand.ClientMessage | src/sandbox.py:62 | a client error message starts "Failed to " and is neither the timeout text nor prefixed "Sandbox execution error: " |
| KaliCommand.ConnectedRunMessage | src/kali_mcps/base/kali_command.py:53-69 | once connected the run returns and never raises; stderr is empty or a message starting "Failed to ", and stdout is empty whenever stderr is not |
| KaliCommand.SafeExecuteResults | src/kali_mcps/base/kali_command.py:71-86 | "Unknown error: " + detail comes back iff the connection was refused; otherwise stderr is empty or the client's own "Failed to " message; stdout is empty when stderr is not; the timeout and sandbox-error texts never appear |
| KaliCommand.ExecuteDispatch | src/kali_mcps/base/kali_command.py:95-98 | in direct mode the staging map is ignored and the engine is not touched; in safe mode execute is safe_execute |
| Text.Join | src/kali_mcps/base/kali_command.py:63 | the joined string is empty for no parts; otherwise its length is the parts' total plus one separator between each pair, and it starts with the first part |
| Text.Split | src/kali_mcps/base/kali_command.py:63 | splitting on single spaces yields one more word than there are spaces |
| Text.SpacesConcat | src/kali_mcps/base/kali_command.py:63 | spaces count additively over a concatenation |
| Text.NoSpaceMeansZero | src/kali_mcps/base/kali_command.py:63 | a string has a space count of zero iff it contains no space |
| Text.SpacesOfJoin | src/kali_mcps/base/kali_command.py:63 | the joined string has the parts' spaces plus one per separator |
| Text.SplitWord | src/kali_mcps/base/kali_command.py:63 | a word without spaces splits to itself |
| Text.SplitAfterWord | src/kali_mcps/base/kali_command.py:63 | splitting a space-free word, a space and a rest gives the word followed by the rest's split |
| Text.NoSpacesInParts | src/kali_mcps/base/kali_command.py:63 | a zero total space count means no part contains a space |
| Text.SplitJoinWords | src/kali_mcps/base/kali_command.py:63 | space-free parts are recovered by splitting their join |
| Text.SplitJoin | src/kali_mcps/base/kali_command.py:63 | for a non-empty vector, a split on single spaces undoes the join iff no argument contains a space |
| Text.WordsThenOperand | src/kali_mcps/base/kali_command.py:63 | fixed space-free words followed by one operand survive the join iff the operand has no space |
| Text.WordsAroundOperand | src/kali_mcps/base/kali_command.py:63 | fixed space-free words around one operand survive the join iff the operand has no space |
| Text.JoinMergesWords | src/kali_mcps/base/kali_command.py:63 | ["-f", "port 80"] and ["-f", "port", "80"] join to the same string |
| Text.NatToString | src/kali_mcps/wireshark/actions.py:17 | str() of a natural number is a non-empty digit string with no leading zero unless the number is zero |
| Text.IntToString | src/kali_mcps/strings/actions.py:23 | str() of an integer is non-empty, starts with '-' iff the number is negative, and contains no space |
| Text.NatToStringValue | src/kali_mcps/strings/actions.py:23 | the digits of str(n) read back as n |
| Text.IntToStringRoundTrip | src/kali_mcps/strings/actions.py:23 | parsing str(n) gives back n, for every integer |
| Text.Lower | src/kali_mcps/base/kali_command.py:23 | lower() keeps the length and lower-cases each character on its own |
| PosixPath.TailStart | src/sandbox.py:90-95 | the basename starts within the path |
| PosixPath.TailStartIsLastSlash | src/sandbox.py:90-95 | the basename starts right after the last '/', or at 0 when there is none |
| PosixPath.TailStartUnique | src/sandbox.py:90-95 | a position right after a '/' with no '/' following it is where the basename starts |
| PosixPath.BasenameFacts | src/sandbox.py:90 | the basename is a suffix of the path and contains no '/' |
| PosixPath.StripSlashesFacts | src/sandbox.py:95 | dropping trailing slashes gives a prefix that does not end in '/' and leaves only slashes behind |
| PosixPath.DirnameFacts | src/sandbox.py:95 | the dirname is a prefix ending no later than the basename start, only slashes lie between, and it ends in '/' only when it is all slashes |
| PosixPath.PathSplitsAtLastSlash | src/sandbox.py:90-95 | every path is its dirname, then slashes, then its basename |
| PosixPath.TmpInputFile | src/kali_mcps/strings/actions.py:15 | /tmp/input_file has dirname /tmp and basename input_file |
| Engine.DropAdd | src/sandbox.py:43 | consuming a replies, then b more, consumes a + b |
| Engine.Answer | src/sandbox.py:43 | an engine request is appended to the trace and consumes exactly one reply |
| Engine.DockerEngine.constructor | src/sandbox.py:43 | a new engine holds its script and an empty trace |
| Engine.DockerEngine.Call | src/sandbox.py:59 | a call answers and updates the state exactly as the answer function says |
| Wireshark.TsharkCommand | src/kali_mcps/wireshark/actions.py:4-9 | tshark runs with network access, 2g memory and 300 s |
| Wireshark.DurationArgument | src/kali_mcps/wireshark/actions.py:17 | the duration:N argument has no space and N parses back to the duration |
| Wireshark.CaptureLiveAction | src/kali_mcps/wireshark/actions.py:11-20 | tshark -i interface -a duration:N, plus -f filter iff the filter is non-empty; the duration reads back from its argument; the vector survives the join iff interface and filter have no space |
| Wireshark.AnalyzePcapAction | src/kali_mcps/wireshark/actions.py:22-31 | tshark -r file, plus -Y filter iff the display filter is non-empty; survives the join iff neither has a space |
| Wireshark.ExtractHttpAction | src/kali_mcps/wireshark/actions.py:33-46 | the HTTP method/URI field extraction vector, with no staging |
| Wireshark.ProtocolHierarchyAction | src/kali_mcps/wireshark/actions.py:48-55 | tshark -r file -q -z io,phs, with no staging |
| Wireshark.ConversationStatisticsAction | src/kali_mcps/wireshark/actions.py:57-64 | tshark -r file -q -z conv,ip, with no staging |
| Wireshark.ExpertInfoAction | src/kali_mcps/wireshark/actions.py:66-73 | tshark -r file -q -z expert, with no staging |
| Wireshark.StatisticsSurvives | src/kali_mcps/wireshark/actions.py:54-72 | a statistics vector survives the join iff the file name has no space |
| Wireshark.HttpFieldsSpaceFree | src/kali_mcps/wireshark/actions.py:39-43 | the field-extraction option words contain no space |
| Wireshark.ExtractHttpSurvives | src/kali_mcps/wireshark/actions.py:33-46 | the HTTP extraction vector survives the join iff the file name has no space |
| Wireshark.TsharkFileVectors | src/kali_mcps/wireshark/actions.py:33-73 | each of the four fixed file vectors survives the join iff the file name has no space |
| Wireshark.CaptureFilterWithSpace | src/kali_mcps/wireshark/actions.py:14 | the documented capture filter "port 80" is split in two by the join |
| Strings.StringsCommand | src/kali_mcps/strings/actions.py:4-6 | strings runs without network, with 1g memory and 120 s |
| Strings.BasicStringsAction | src/kali_mcps/strings/actions.py:8-15 | strings target, always staging input_file to /tmp/input_file |
| Strings.BasicStringsIgnoresInput | src/kali_mcps/strings/actions.py:8-15 | the bytes argument has no effect on the request |
| Strings.BasicStringsUpload | src/kali_mcps/strings/actions.py:15 | in the sandbox that staging is one upload of input_file as member input_file of /tmp |
| Strings.MinLengthStringsAction | src/kali_mcps/strings/actions.py:17-24 | exactly `strings -n str(N) target`, where the third argument is the decimal rendering of N and parses back to N; survives the join iff the target has no space |
| Strings.OffsetStringsAction | src/kali_mcps/strings/actions.py:26-34 | strings -t format target; survives the join iff format and target have no space |
| Strings.EncodingStringsAction | src/kali_mcps/strings/actions.py:36-48 | strings -e encoding target; survives the join iff encoding and target have no space |
| Nm.NmCommand | src/kali_mcps/nm/actions.py:4-6 | nm runs without network, with 1g memory and 120 s |
| Nm.BasicSymbols | src/kali_mcps/nm/actions.py:8-15 | nm target, with no staging |
| Nm.DynamicSymbols | src/kali_mcps/nm/actions.py:17-24 | nm -D target, with no staging |
| Nm.DemangleSymbols | src/kali_mcps/nm/actions.py:26-33 | nm -C target, with no staging |
| Nm.NumericSort | src/kali_mcps/nm/actions.py:35-42 | nm -n target, with no staging |
| Nm.SizeSort | src/kali_mcps/nm/actions.py:44-51 | nm -S target, with no staging |
| Nm.UndefinedSymbols | src/kali_mcps/nm/actions.py:53-60 | nm -u target, with no staging |
| Nm.ListingSurvives | src/kali_mcps/nm/actions.py:23-59 | an option listing survives the join iff the target has no space |
| Nm.NmVectorsSurvive | src/kali_mcps/nm/actions.py:8-60 | every nm vector survives the join iff the target has no space |
| Objdump.ObjdumpCommand | src/kali_mcps/objdump/actions.py:4-6 | objdump runs without network, with 1g memory and 120 s |
| Objdump.FileHeadersAction | src/kali_mcps/objdump/actions.py:8-15 | objdump -f target, with no staging |
| Objdump.DisassembleAction | src/kali_mcps/objdump/actions.py:17-24 | objdump -d -j section target, .text by default; survives the join iff section and target have no space |
| Objdump.SymbolTableAction | src/kali_mcps/objdump/actions.py:26-33 | objdump -t target, with no staging |
| Objdump.SectionHeadersAction | src/kali_mcps/objdump/actions.py:35-42 | objdump -h target, with no staging |
| Objdump.FullContentsAction | src/kali_mcps/objdump/actions.py:44-51 | objdump -x target, with no staging |
| Objdump.DumpSurvives | src/kali_mcps/objdump/actions.py:14-50 | a one-option dump survives the join iff the target has no space |
| Objdump.ObjdumpVectorsSurvive | src/kali_mcps/objdump/actions.py:8-51 | every objdump vector, disassembly of .text included, survives the join iff the target has no space |
| Nmap.NmapCommand | src/kali_mcps/nmap/actions.py:4-9 | nmap runs with network access, 2g memory and 300 s |
| Nmap.BasicScan | src/kali_mcps/nmap/actions.py:11-18 | nmap target, with no staging |
| Nmap.IntenseScan | src/kali_mcps/nmap/actions.py:20-27 | nmap -T4 -A target, with no staging |
| Nmap.StealthScan | src/kali_mcps/nmap/actions.py:29-37 | nmap -sS target, with no staging |
| Nmap.QuickScan | src/kali_mcps/nmap/actions.py:39-46 | nmap -T4 -F target, with no staging |
| Nmap.VulnerabilityScan | src/kali_mcps/nmap/actions.py:48-55 | nmap -sV --script vuln target, with no staging |
| Nmap.ScanSurvives | src/kali_mcps/nmap/actions.py:17-54 | a scan with space-free options survives the join iff the target has no space |
| Nmap.NmapVectorsSurvive | src/kali_mcps/nmap/actions.py:11-55 | every nmap vector survives the join iff the target has no space |
| Traceroute.TracerouteCommand | src/kali_mcps/traceroute/actions.py:4-6 | the traceroute policy has network access, 1g memory and 120 s |
| Traceroute.TracerouteAction | src/kali_mcps/traceroute/actions.py:8-13 | tracert target, with no staging; the program name differs from the policy's name; survives the join iff the target has no space |

## Left out

- Docker itself. The engine is a script of accepted or refused replies; images, container processes, tar encoding and the bytes moved are not modelled. An exhausted script accepts every further request with empty output.
- copy_from_container: the host-side directory creation and file write after the fetch are not modelled. A host failure there is folded into the fetch reply.
- copy_to_container: building the tar archive on the host is one upload request. A host failure while reading the source is folded into that request's reply.
- Host processes. `subprocess.Popen` is a caller-supplied function from the vector to its two output streams or a spawn error. Output decoding is not modelled.
- The environment. `IS_SAFE` is passed in as an optional string, since reading the process environment is I/O.
- Text.Lower: lower-cases ASCII letters only; Python's Unicode case mapping (which also decides `SafeFlag` for non-ASCII input) is not modelled.
- Sandbox.ContainerConfig: the run request carries the CPU limit as a real number; the conversion `int(cpu_limit * 1e9)` to `nano_cpus` is not modelled, since nothing in the core reads it back.
- The exec string's tokenizing. `exec_run` (src/sandbox.py:70) hands the joined string to the Docker client, which splits it shell-style (quotes and backslashes are consumed, tabs and newlines separate words, empty words vanish). The model does not capture that tokenizer: `Text.SurvivesJoin` and the `...Survives` lemmas speak of a split on single spaces, which agrees with it on vectors of non-empty words free of quotes, backslashes and whitespace.
- Timeouts. The `timeout` setting is stored but never enforced or passed to the engine, so no time is modelled.
- Concurrency. Coroutines and `await` are modelled as sequential calls.
- The missing `await`. The wireshark and strings actions call `execute` without `await` and so return a coroutine object. The model treats their vectors like those of the other tools.
- Logging. The `print` calls, including the swallowed cleanup error message, produce no observable output in the model.
- Context files. src/mcp_server.py, app.py and src/kali_mcps/__init__.py are not part of this model.
- The nmap import. src/kali_mcps/nmap/actions.py:2 imports `KaliCommand`, a name the base module does not define. The model gives the nmap policy the same runner as the other tools.
- Staging maps. A Python dict is a sequence of (local path, container path) pairs in insertion order; duplicate keys are not excluded.
