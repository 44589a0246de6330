/**
 * What the Docker and Kubernetes adapters share (containers/base.py and the code both adapters
 * repeat): how a CLI invocation becomes an `ExecResult`, the default debugpy endpoint, the
 * parsing of a process listing, the install chain, and how a failed injection is classified.
 *
 * The command-line tools are an oracle: a `Cli` answers each invocation (argument vector and
 * timeout) with what the child process did. Every adapter operation is a function of the
 * oracle that returns its outcome together with the invocations it made, in order.
 */
module AdapterBase {
  import opened Wrappers
  import opened Strings
  import opened ContainerTargets
  import opened ContainerModels
  import opened ContainerErrors

  // ---------------------------------------------------------------------------
  // Invoking a command-line tool
  // ---------------------------------------------------------------------------

  /** One invocation: the argument vector (the program first) and the timeout in seconds. */
  datatype Call = Call(argv: seq<string>, timeout: real)

  /** What the child process did: it ran to completion, it outlived the timeout, or it never ran. */
  datatype CliOutcome =
    | Finished(exitCode: int, stdout: string, stderr: string)
    | TimedOut
    | SpawnFailed(reason: string)

  type Cli = Call -> CliOutcome

  /** The outcome of an adapter operation and the invocations it made, in order. */
  datatype Run<T> = Run(result: Result<T, Failure>, calls: seq<Call>)

  /**
   * `_run_cli` / `_run_kubectl` without `check` (no caller sets it): a timed-out command
   * reports exit code -1 and `Command timed out`, and a command that could not be started
   * reports exit code -1 and the exception's text.
   */
  function RunCli(o: CliOutcome): (r: ExecResult)
    ensures r.Success() <==> o.Finished? && o.exitCode == 0
    ensures r.timedOut <==> o.TimedOut?
    ensures !o.Finished? ==> r.exitCode == -1 && r.stdout == ""
  {
    match o
    case Finished(code, out, err) => ExecResult(code, out, err, false)
    case TimedOut => ExecResult(-1, "", "Command timed out", true)
    case SpawnFailed(reason) => ExecResult(-1, "", reason, false)
  }

  /** `is_available`: the tool is on the path and its version query exits with 0 within 5 s. */
  function ToolAvailable(onPath: bool, cli: Cli, versionQuery: seq<string>): (available: bool)
    ensures available <==> onPath && cli(Call(versionQuery, 5.0)).Finished? && cli(Call(versionQuery, 5.0)).exitCode == 0
  {
    onPath && match cli(Call(versionQuery, 5.0))
      case Finished(code, _, _) => code == 0
      case _ => false
  }

  // ---------------------------------------------------------------------------
  // The default debugpy endpoint
  // ---------------------------------------------------------------------------

  datatype Endpoint = Endpoint(host: string, port: int)

  const Loopback := "127.0.0.1"

  /** How a details dictionary shows an optional string: `None` is missing. */
  function OptionalText(o: Option<string>): Detail {
    if o.Some? then Text(o.value) else Missing
  }

  /**
   * The default `get_debugpy_endpoint` once the container is known: the published host port
   * on the loopback address, else the container's own address, else a `NO_ENDPOINT` error.
   */
  function EndpointFor(identifier: string, info: ContainerInfo, port: int): Result<Endpoint, Failure> {
    if port in info.ports then Ok(Endpoint(Loopback, info.ports[port]))
    else if Truthy(info.ipAddress) then Ok(Endpoint(info.ipAddress.value, port))
    else Err(Raised(ErrorWithCode("Cannot determine debugpy endpoint for container " + identifier, "NO_ENDPOINT",
      map["container" := Text(identifier), "port" := Number(port), "mapped_ports" := PortMap(info.ports),
          "ip_address" := OptionalText(info.ipAddress)])))
  }

  /**
   * The three outcomes of the endpoint decision: a published port wins, the container address
   * is used only when the port is not published, and the error reports everything it looked at.
   */
  lemma EndpointDecision(identifier: string, info: ContainerInfo, port: int)
    ensures var r := EndpointFor(identifier, info, port);
      && (port in info.ports ==> r == Ok(Endpoint(Loopback, info.ports[port])))
      && (port !in info.ports && Truthy(info.ipAddress) ==> r == Ok(Endpoint(info.ipAddress.value, port)))
      && (r.Err? <==> port !in info.ports && !Truthy(info.ipAddress))
      && (r.Err? ==>
            (&& r.error.Raised? && r.error.error.code == "NO_ENDPOINT"
             && r.error.error.details["mapped_ports"] == PortMap(info.ports)
             && r.error.error.details["port"] == Number(port)))
  {
  }

  // ---------------------------------------------------------------------------
  // Running commands inside the container
  // ---------------------------------------------------------------------------

  /**
   * An adapter's `exec_command` for one target, given the command and its timeout: whatever it
   * does inside (looking the container up first) shows in the invocations of its `Run`.
   */
  type Exec = (seq<string>, real) -> Run<ExecResult>

  predicate Succeeded(r: Run<ExecResult>) {
    r.result.Ok? && r.result.value.Success()
  }

  predicate Failed(r: Run<ExecResult>) {
    r.result.Ok? && !r.result.value.Success()
  }

  // ---------------------------------------------------------------------------
  // Listing Python processes
  // ---------------------------------------------------------------------------

  /** The lines of a listing after its header: the stripped output cut at newlines, minus the first. */
  function ListingLines(stdout: string): seq<string> {
    SplitOn(Strip(stdout), '\n')[1..]
  }

  /** The Python processes among `lines`, in order. */
  function PythonProcesses(lines: seq<string>): seq<ProcessInfo> {
    Kept(FromPsLine, lines)
  }

  /** What a line contributes once `parse` has read it: its process, if that is a Python one. */
  function KeptProcess(parsed: Option<ProcessInfo>): seq<ProcessInfo> {
    if parsed.Some? && parsed.value.isPython then [parsed.value] else []
  }

  /** The processes the lines contribute, in order, for any line parser. */
  function Kept(parse: string -> Option<ProcessInfo>, lines: seq<string>): seq<ProcessInfo>
    decreases |lines|
  {
    if lines == [] then []
    else Kept(parse, lines[..|lines| - 1]) + KeptProcess(parse(lines[|lines| - 1]))
  }

  /** The loop of `find_python_processes` over the lines after the header. */
  method CollectPythonProcesses(stdout: string) returns (processes: seq<ProcessInfo>)
    ensures processes == PythonProcesses(ListingLines(stdout))
  {
    var lines := SplitOn(Strip(stdout), '\n');
    processes := CollectKept(FromPsLine, lines[1..]);
  }

  /** Parses each line in turn and appends the processes that are Python processes. */
  method CollectKept(parse: string -> Option<ProcessInfo>, lines: seq<string>) returns (processes: seq<ProcessInfo>)
    ensures processes == Kept(parse, lines)
  {
    processes := [];
    var i := 0;
    while i < |lines|
      invariant 0 <= i <= |lines|
      invariant processes == Kept(parse, lines[..i])
    {
      var proc := parse(lines[i]);
      if proc.Some? && proc.value.isPython {
        processes := processes + [proc.value];
      }
      assert lines[..i + 1][..i] == lines[..i];
      i := i + 1;
    }
    assert lines[..i] == lines;
  }

  /**
   * A process is listed exactly when some line parses to it and it is a Python process; the
   * listing is never longer than the input.
   */
  lemma PythonProcessesMembers(lines: seq<string>, p: ProcessInfo)
    ensures p in PythonProcesses(lines) <==> exists i :: 0 <= i < |lines| && FromPsLine(lines[i]) == Some(p) && p.isPython
    ensures |PythonProcesses(lines)| <= |lines|
  {
    KeptMembers(FromPsLine, lines, p);
  }

  lemma {:induction false} KeptMembers(parse: string -> Option<ProcessInfo>, lines: seq<string>, p: ProcessInfo)
    ensures p in Kept(parse, lines) <==> exists i :: 0 <= i < |lines| && parse(lines[i]) == Some(p) && p.isPython
    ensures |Kept(parse, lines)| <= |lines|
    decreases |lines|
  {
    if lines != [] {
      var init := lines[..|lines| - 1];
      var last := lines[|lines| - 1];
      KeptMembers(parse, init, p);
      assert forall i :: 0 <= i < |init| ==> init[i] == lines[i];
      if exists i :: 0 <= i < |lines| && parse(lines[i]) == Some(p) && p.isPython {
        var i :| 0 <= i < |lines| && parse(lines[i]) == Some(p) && p.isPython;
        if i < |init| {
          assert parse(init[i]) == Some(p);
        } else {
          assert p in KeptProcess(parse(last));
        }
      }
    }
  }

  /**
   * `find_python_processes`: `ps aux`, then `fallback` when that fails; a listing that still
   * fails gives no processes, and errors raised by `exec_command` propagate.
   */
  function FindProcesses(exec: Exec, fallback: seq<string>): Run<seq<ProcessInfo>> {
    var first := exec(["ps", "aux"], 10.0);
    if first.result.Err? then Run(Err(first.result.error), first.calls)
    else if first.result.value.Success() then Run(Ok(PythonProcesses(ListingLines(first.result.value.stdout))), first.calls)
    else
      var second := exec(fallback, 10.0);
      if second.result.Err? then Run(Err(second.result.error), first.calls + second.calls)
      else if second.result.value.Success() then
        Run(Ok(PythonProcesses(ListingLines(second.result.value.stdout))), first.calls + second.calls)
      else Run(Ok([]), first.calls + second.calls)
  }

  /**
   * The fallback listing runs only when `ps aux` ran and failed; when both fail the answer is
   * an empty list; otherwise the answer is the Python processes of the listing that succeeded.
   */
  lemma FindProcessesFallback(exec: Exec, fallback: seq<string>)
    ensures var r := FindProcesses(exec, fallback);
      var first := exec(["ps", "aux"], 10.0);
      var second := exec(fallback, 10.0);
      && (!Failed(first) ==> r.calls == first.calls)
      && (Succeeded(first) ==> r.result == Ok(PythonProcesses(ListingLines(first.result.value.stdout))))
      && (Failed(first) ==> r.calls == first.calls + second.calls)
      && (Failed(first) && Succeeded(second) ==> r.result == Ok(PythonProcesses(ListingLines(second.result.value.stdout))))
      && (Failed(first) && Failed(second) ==> r.result == Ok([]))
      && (r.result.Err? <==> first.result.Err? || (Failed(first) && second.result.Err?))
  {
  }

  // ---------------------------------------------------------------------------
  // Checking and installing debugpy
  // ---------------------------------------------------------------------------

  const CheckCommand: seq<string> := ["python", "-c", "import debugpy; print(debugpy.__version__)"]

  /** `check_debugpy_installed`: whether the import succeeds. */
  function CheckInstalled(exec: Exec): (r: Run<bool>)
    ensures r.calls == exec(CheckCommand, 10.0).calls
    ensures r.result.Ok? <==> exec(CheckCommand, 10.0).result.Ok?
    ensures r.result.Ok? ==> (r.result.value <==> Succeeded(exec(CheckCommand, 10.0)))
  {
    var run := exec(CheckCommand, 10.0);
    match run.result
    case Err(e) => Run(Err(e), run.calls)
    case Ok(res) => Run(Ok(res.Success()), run.calls)
  }

  /** The command that installs debugpy with one installer. */
  function InstallCommand(installer: seq<string>): seq<string> {
    installer + ["install", "--quiet", "debugpy"]
  }

  /** Docker and Podman try `pip`, then `pip3`, then `python -m pip`. */
  const DockerInstallers: seq<seq<string>> := [["pip"], ["pip3"], ["python", "-m", "pip"]]

  /** Kubernetes tries `pip`, then `python -m pip`. */
  const KubernetesInstallers: seq<seq<string>> := [["pip"], ["python", "-m", "pip"]]

  function InstallRun(exec: Exec, installer: seq<string>): Run<ExecResult> {
    exec(InstallCommand(installer), 60.0)
  }

  /** The installers in turn until one succeeds or `exec_command` raises; the last result. */
  function TryInstallers(exec: Exec, installers: seq<seq<string>>): Run<ExecResult>
    requires |installers| >= 1
    decreases |installers|
  {
    var run := InstallRun(exec, installers[0]);
    if run.result.Err? || run.result.value.Success() || |installers| == 1 then run
    else
      var rest := TryInstallers(exec, installers[1..]);
      Run(rest.result, run.calls + rest.calls)
  }

  /** `install_debugpy`: the chain, and an exec error for the last installer when all fail. */
  function Install(exec: Exec, installers: seq<seq<string>>): Run<()>
    requires |installers| >= 1
  {
    var run := TryInstallers(exec, installers);
    match run.result
    case Err(e) => Run(Err(e), run.calls)
    case Ok(res) =>
      if res.Success() then Run(Ok(()), run.calls)
      else Run(Err(Raised(ExecError("pip install debugpy", res.exitCode, res.stderr))), run.calls)
  }

  /** The invocations of the first `n` installers, in order. */
  function InstallCalls(exec: Exec, installers: seq<seq<string>>, n: nat): seq<Call>
    requires n <= |installers|
  {
    if n == 0 then [] else InstallCalls(exec, installers, n - 1) + InstallRun(exec, installers[n - 1]).calls
  }

  /** Every installer before the `n`-th ran and failed. */
  predicate FailedBefore(exec: Exec, installers: seq<seq<string>>, n: nat)
    requires n <= |installers|
  {
    forall j :: 0 <= j < n ==> Failed(InstallRun(exec, installers[j]))
  }

  lemma InstallCallsCons(exec: Exec, installers: seq<seq<string>>, n: nat)
    requires 1 <= n <= |installers|
    ensures InstallCalls(exec, installers, n)
         == InstallRun(exec, installers[0]).calls + InstallCalls(exec, installers[1..], n - 1)
    decreases n
  {
    if n > 1 {
      InstallCallsCons(exec, installers, n - 1);
      assert installers[1..][n - 2] == installers[n - 1];
    }
  }

  /** A chain of two installers: the second runs only after the first failed. */
  lemma InstallChainOfTwo(exec: Exec, a: seq<string>, b: seq<string>)
    ensures Succeeded(InstallRun(exec, a)) ==> Install(exec, [a, b]) == Run(Ok(()), InstallRun(exec, a).calls)
    ensures Failed(InstallRun(exec, a)) ==> TryInstallers(exec, [a, b]) == Run(InstallRun(exec, b).result, InstallRun(exec, a).calls + InstallRun(exec, b).calls)
    ensures Failed(InstallRun(exec, a)) ==> Install(exec, [a, b]).calls == InstallRun(exec, a).calls + InstallRun(exec, b).calls
  {
    var l := [a, b];
    assert l[1..] == [b];
  }

  /** A chain of three installers: each runs only after the ones before it failed. */
  lemma InstallChainOfThree(exec: Exec, a: seq<string>, b: seq<string>, c: seq<string>)
    ensures Succeeded(InstallRun(exec, a)) ==> Install(exec, [a, b, c]) == Run(Ok(()), InstallRun(exec, a).calls)
    ensures Failed(InstallRun(exec, a)) && Succeeded(InstallRun(exec, b)) ==>
      Install(exec, [a, b, c]) == Run(Ok(()), InstallRun(exec, a).calls + InstallRun(exec, b).calls)
    ensures Failed(InstallRun(exec, a)) && Failed(InstallRun(exec, b)) ==>
      Install(exec, [a, b, c]).calls == InstallRun(exec, a).calls + InstallRun(exec, b).calls + InstallRun(exec, c).calls
  {
    var l := [a, b, c];
    assert l[1..] == [b, c];
    if Failed(InstallRun(exec, a)) {
      InstallChainOfTwo(exec, b, c);
    }
  }

  /**
   * The chain stops at the first installer that does not fail (it succeeds, or `exec_command`
   * raises): the outcome is that installer's, and only that installer and the failed ones
   * before it ran.
   */
  lemma {:induction false} TryInstallersStopsAt(exec: Exec, installers: seq<seq<string>>, i: nat)
    requires i < |installers|
    requires FailedBefore(exec, installers, i)
    requires !Failed(InstallRun(exec, installers[i]))
    ensures TryInstallers(exec, installers).result == InstallRun(exec, installers[i]).result
    ensures TryInstallers(exec, installers).calls == InstallCalls(exec, installers, i + 1)
    decreases i
  {
    InstallCallsCons(exec, installers, i + 1);
    if i > 0 {
      assert Failed(InstallRun(exec, installers[0]));
      var rest := installers[1..];
      assert forall j :: 0 <= j < i - 1 ==> rest[j] == installers[j + 1];
      assert FailedBefore(exec, rest, i - 1);
      TryInstallersStopsAt(exec, rest, i - 1);
    }
  }

  /** When every installer fails, all of them ran and the outcome is the last failure. */
  lemma {:induction false} TryInstallersAllFail(exec: Exec, installers: seq<seq<string>>)
    requires |installers| >= 1
    requires FailedBefore(exec, installers, |installers|)
    ensures TryInstallers(exec, installers).result == InstallRun(exec, installers[|installers| - 1]).result
    ensures TryInstallers(exec, installers).calls == InstallCalls(exec, installers, |installers|)
    decreases |installers|
  {
    InstallCallsCons(exec, installers, |installers|);
    assert Failed(InstallRun(exec, installers[0]));
    if |installers| > 1 {
      var rest := installers[1..];
      assert forall j :: 0 <= j < |rest| ==> rest[j] == installers[j + 1];
      TryInstallersAllFail(exec, rest);
    }
  }

  /**
   * `install_debugpy` succeeds exactly when some installer succeeds after all earlier ones
   * failed; when they all fail it raises an exec error that carries the last exit code and stderr.
   */
  lemma InstallOutcome(exec: Exec, installers: seq<seq<string>>)
    requires |installers| >= 1
    ensures Install(exec, installers).result.Ok? <==>
      exists i :: 0 <= i < |installers| && FailedBefore(exec, installers, i) && Succeeded(InstallRun(exec, installers[i]))
    ensures FailedBefore(exec, installers, |installers|) ==>
      var last := InstallRun(exec, installers[|installers| - 1]).result.value;
      && Install(exec, installers).result == Err(Raised(ExecError("pip install debugpy", last.exitCode, last.stderr)))
      && Install(exec, installers).calls == InstallCalls(exec, installers, |installers|)
  {
    var n := FirstNotFailed(exec, installers, 0);
    if n < |installers| {
      TryInstallersStopsAt(exec, installers, n);
      if Install(exec, installers).result.Ok? {
        assert Succeeded(InstallRun(exec, installers[n]));
      }
      if exists i :: 0 <= i < |installers| && FailedBefore(exec, installers, i) && Succeeded(InstallRun(exec, installers[i])) {
        var i :| 0 <= i < |installers| && FailedBefore(exec, installers, i) && Succeeded(InstallRun(exec, installers[i]));
        assert i >= n;
        assert n >= i;
      }
    } else {
      TryInstallersAllFail(exec, installers);
      assert !exists i :: 0 <= i < |installers| && FailedBefore(exec, installers, i) && Succeeded(InstallRun(exec, installers[i]));
    }
  }

  /** The index of the first installer from `from` on that does not fail, or the length. */
  function FirstNotFailed(exec: Exec, installers: seq<seq<string>>, from: nat): (n: nat)
    requires from <= |installers|
    requires FailedBefore(exec, installers, from)
    ensures from <= n <= |installers| && FailedBefore(exec, installers, n)
    ensures n < |installers| ==> !Failed(InstallRun(exec, installers[n]))
    decreases |installers| - from
  {
    if from == |installers| || !Failed(InstallRun(exec, installers[from])) then from
    else FirstNotFailed(exec, installers, from + 1)
  }

  /** `if not check_debugpy_installed(): install_debugpy()`. */
  function EnsureInstalled(exec: Exec, installers: seq<seq<string>>): Run<()>
    requires |installers| >= 1
  {
    var check := CheckInstalled(exec);
    match check.result
    case Err(e) => Run(Err(e), check.calls)
    case Ok(installed) =>
      if installed then Run(Ok(()), check.calls)
      else
        var install := Install(exec, installers);
        Run(install.result, check.calls + install.calls)
  }

  /** Nothing is installed when the check finds debugpy; otherwise the install chain follows the check. */
  lemma EnsureInstalledSkips(exec: Exec, installers: seq<seq<string>>)
    requires |installers| >= 1
    ensures Succeeded(exec(CheckCommand, 10.0)) ==>
      EnsureInstalled(exec, installers) == Run(Ok(()), exec(CheckCommand, 10.0).calls)
    ensures Failed(exec(CheckCommand, 10.0)) ==>
      EnsureInstalled(exec, installers)
        == Run(Install(exec, installers).result, exec(CheckCommand, 10.0).calls + Install(exec, installers).calls)
  {
  }

  // ---------------------------------------------------------------------------
  // Injecting and launching debugpy
  // ---------------------------------------------------------------------------

  /** `0.0.0.0:<port>`: debugpy listens on every interface of the container. */
  function ListenAddress(port: int): string {
    "0.0.0.0:" + IntToString(port)
  }

  /** `python -m debugpy --listen 0.0.0.0:<port> --pid <pid>`. */
  function InjectCommand(pid: int, port: int): seq<string> {
    ["python", "-m", "debugpy", "--listen", ListenAddress(port), "--pid", IntToString(pid)]
  }

  /** `python -m debugpy --listen 0.0.0.0:<port> [--wait-for-client] <command...>`. */
  function DebugpyCommand(port: int, waitForClient: bool, command: seq<string>): (argv: seq<string>)
    ensures |argv| == 5 + (if waitForClient then 1 else 0) + |command|
    ensures argv[..5] == ["python", "-m", "debugpy", "--listen", ListenAddress(port)]
    ensures argv[|argv| - |command|..] == command
    ensures waitForClient <==> argv[5..|argv| - |command|] == ["--wait-for-client"]
  {
    ["python", "-m", "debugpy", "--listen", ListenAddress(port)]
      + (if waitForClient then ["--wait-for-client"] else []) + command
  }

  /** The words in a failed injection's (lower-cased) stderr that mean ptrace was refused. */
  predicate PtraceRefused(stderrLower: string) {
    Contains(stderrLower, "operation not permitted") || Contains(stderrLower, "ptrace") || Contains(stderrLower, "eperm")
  }

  /**
   * A failed `debugpy --pid` is a security error with the runtime's remediation steps when its
   * stderr mentions a refused ptrace in any letter case, and an exec error otherwise.
   */
  function ClassifyInjection(res: ExecResult, pid: int, instructions: seq<string>): Result<(), Failure> {
    if res.Success() then Ok(())
    else if PtraceRefused(Lower(res.stderr)) then
      Err(Raised(SecurityError("Cannot inject debugpy: ptrace not permitted", Some(instructions))))
    else Err(Raised(ExecError("debugpy --pid " + IntToString(pid), res.exitCode, res.stderr)))
  }

  /** The classification's cases, both ways. */
  lemma ClassifyInjectionCases(res: ExecResult, pid: int, instructions: seq<string>)
    ensures var r := ClassifyInjection(res, pid, instructions);
      && (r.Ok? <==> res.Success())
      && (r.Err? ==> r.error.Raised?)
      && (r.Err? && r.error.error.kind == Security <==> !res.Success() && PtraceRefused(Lower(res.stderr)))
      && (r.Err? && r.error.error.kind == Security ==> r.error.error.instructions == instructions)
      && (r.Err? && r.error.error.kind == ExecFailed ==>
            r.error.error.details["exit_code"] == Number(res.exitCode) && r.error.error.details["stderr"] == Text(res.stderr))
  {
  }

  /** Lower-casing keeps every occurrence: what `s` contains, its lower case contains lower-cased. */
  lemma {:induction false} ContainsLower(s: string, sub: string)
    requires Contains(s, sub)
    ensures Contains(Lower(s), Lower(sub))
    decreases |s|
  {
    if sub <= s {
      assert Lower(sub) == Lower(s)[..|sub|];
    } else {
      ContainsLower(s[1..], sub);
      assert Lower(s)[1..] == Lower(s[1..]);
    }
  }

  /** A marker is found whatever its case, e.g. `EPERM` or `Operation not permitted`. */
  lemma MarkersIgnoreCase(stderr: string, marker: string)
    requires Lower(marker) in {"operation not permitted", "ptrace", "eperm"}
    requires Contains(stderr, marker)
    ensures PtraceRefused(Lower(stderr))
  {
    ContainsLower(stderr, marker);
  }

  /**
   * `inject_debugpy`: make sure debugpy is installed, then attach to the process and classify
   * a failure.
   */
  function Inject(exec: Exec, installers: seq<seq<string>>, pid: int, port: int, instructions: seq<string>): Run<()>
    requires |installers| >= 1
  {
    var ready := EnsureInstalled(exec, installers);
    if ready.result.Err? then ready
    else
      var run := exec(InjectCommand(pid, port), 30.0);
      match run.result
      case Err(e) => Run(Err(e), ready.calls + run.calls)
      case Ok(res) => Run(ClassifyInjection(res, pid, instructions), ready.calls + run.calls)
  }

  /** The attach command runs only once debugpy is known to be installed, and it runs last. */
  lemma InjectAfterInstall(exec: Exec, installers: seq<seq<string>>, pid: int, port: int, instructions: seq<string>)
    requires |installers| >= 1
    ensures var r := Inject(exec, installers, pid, port, instructions);
      var ready := EnsureInstalled(exec, installers);
      && (ready.result.Err? ==> r == ready)
      && (ready.result.Ok? ==> r.calls == ready.calls + exec(InjectCommand(pid, port), 30.0).calls)
      && (ready.result.Ok? && exec(InjectCommand(pid, port), 30.0).result.Ok? ==>
            r.result == ClassifyInjection(exec(InjectCommand(pid, port), 30.0).result.value, pid, instructions))
  {
  }

  // ---------------------------------------------------------------------------
  // Which tool runs
  // ---------------------------------------------------------------------------

  /** Every invocation runs `tool`. */
  predicate AllTo(calls: seq<Call>, tool: string) {
    forall i :: 0 <= i < |calls| ==> |calls[i].argv| > 0 && calls[i].argv[0] == tool
  }

  /** Whatever it is asked to run, `exec` only invokes `tool`. */
  ghost predicate ExecTo(exec: Exec, tool: string) {
    forall command, timeout :: AllTo(exec(command, timeout).calls, tool)
  }

  lemma AllToConcat(a: seq<Call>, b: seq<Call>, tool: string)
    requires AllTo(a, tool) && AllTo(b, tool)
    ensures AllTo(a + b, tool)
  {
    forall i | 0 <= i < |a + b|
      ensures |(a + b)[i].argv| > 0 && (a + b)[i].argv[0] == tool
    {
      if i >= |a| {
        assert (a + b)[i] == b[i - |a|];
      }
    }
  }

  lemma {:induction false} TryInstallersTo(exec: Exec, installers: seq<seq<string>>, tool: string)
    requires |installers| >= 1
    requires ExecTo(exec, tool)
    ensures AllTo(TryInstallers(exec, installers).calls, tool)
    decreases |installers|
  {
    var run := InstallRun(exec, installers[0]);
    assert AllTo(run.calls, tool);
    if !(run.result.Err? || run.result.value.Success() || |installers| == 1) {
      TryInstallersTo(exec, installers[1..], tool);
      AllToConcat(run.calls, TryInstallers(exec, installers[1..]).calls, tool);
    }
  }

  /**
   * An adapter operation built on `exec` invokes no other tool than `exec` does: listing
   * processes, checking for, installing and injecting debugpy.
   */
  lemma OperationsUseTool(exec: Exec, tool: string, fallback: seq<string>, installers: seq<seq<string>>,
                          pid: int, port: int, instructions: seq<string>)
    requires |installers| >= 1
    requires ExecTo(exec, tool)
    ensures AllTo(FindProcesses(exec, fallback).calls, tool)
    ensures AllTo(CheckInstalled(exec).calls, tool)
    ensures AllTo(Install(exec, installers).calls, tool)
    ensures AllTo(EnsureInstalled(exec, installers).calls, tool)
    ensures AllTo(Inject(exec, installers, pid, port, instructions).calls, tool)
  {
    AllToConcat(exec(["ps", "aux"], 10.0).calls, exec(fallback, 10.0).calls, tool);
    TryInstallersTo(exec, installers, tool);
    AllToConcat(CheckInstalled(exec).calls, Install(exec, installers).calls, tool);
    AllToConcat(EnsureInstalled(exec, installers).calls, exec(InjectCommand(pid, port), 30.0).calls, tool);
  }
}
