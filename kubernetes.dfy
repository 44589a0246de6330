/**
 * The Kubernetes adapter (containers/kubernetes.py): it drives `kubectl` against a pod, runs
 * commands through `kubectl exec ... -- sh -c <line>`, and reaches debugpy through a
 * `kubectl port-forward` process that it keeps in a cache until the forwards are cleaned up.
 */
module Kubernetes {
  import opened Wrappers
  import opened Strings
  import opened Processes
  import opened ContainerTargets
  import opened ContainerModels
  import opened ContainerErrors
  import opened AdapterBase

  const Kubectl := "kubectl"

  /** `_get_pod_identifier`: the namespace (`default` when empty) and the pod name. */
  function PodIdentifier(target: ContainerTarget): (id: (string, string))
    ensures id.0 == (if target.namespace == "" then "default" else target.namespace)
    ensures id.0 != ""
    ensures id.1 == Or(target.podName, Or(target.containerName, ""))
  {
    (if target.namespace == "" then "default" else target.namespace, Or(target.podName, Or(target.containerName, "")))
  }

  /**
   * The pod name falls back on the container name, and the target's default namespace is the
   * one `kubectl` is pointed at when the target names none.
   */
  lemma PodIdentifierDefaults(name: string)
    requires name != ""
    ensures var t := NewTarget(ContainerRuntime.Kubernetes).(containerName := Some(name));
      PodIdentifier(t) == ("default", name)
    ensures PodIdentifier(NewTarget(ContainerRuntime.Kubernetes)) == ("default", "")
  {
  }

  // ---------------------------------------------------------------------------
  // `kubectl get pod`
  // ---------------------------------------------------------------------------

  /** What one entry of `status.containerStatuses` says about its container. */
  datatype ContainerStatus = ContainerStatus(name: Option<string>, running: bool, terminated: bool, waiting: bool)

  /**
   * The fields of `kubectl get pod -o json` the adapter reads. `containerImages` is `None` when
   * the pod spec has no `containers` list and then stands for `[{}]`.
   */
  datatype PodData = PodData(
    phase: Option<string>,
    podIp: Option<string>,
    containerStatuses: seq<ContainerStatus>,
    uid: Option<string>,
    containerImages: Option<seq<Option<string>>>,
    labels: map<string, string>)

  /** `json.loads` followed by the reading of those fields; `None` is a decoding error. */
  type PodDecoder = string -> Option<PodData>

  /** The states a pod phase (lower-cased) stands for; any other phase is unknown. */
  function PhaseToState(phase: string): ContainerState {
    if phase == "pending" then Created
    else if phase == "running" then Running
    else if phase == "succeeded" then Exited
    else if phase == "failed" then Dead
    else Unknown
  }

  /**
   * Only a running phase means a running pod; a phase never says paused, restarting or
   * removing, and every unlisted phase means unknown.
   */
  lemma PhaseToStateCases(phase: string)
    ensures PhaseToState(phase) == Running <==> phase == "running"
    ensures PhaseToState(phase) in {Created, Running, Exited, Dead, Unknown}
    ensures phase !in {"pending", "running", "succeeded", "failed"} ==> PhaseToState(phase) == Unknown
  {
  }

  /** The state one container status gives: running, else terminated, else waiting, else no change. */
  function StatusState(cs: ContainerStatus, state: ContainerState): ContainerState {
    if cs.running then Running
    else if cs.terminated then Exited
    else if cs.waiting then Created
    else state
  }

  /** The state after the first status named `name`; without one the phase's state stands. */
  function StatusOverride(statuses: seq<ContainerStatus>, name: string, state: ContainerState): ContainerState
    decreases |statuses|
  {
    if statuses == [] then state
    else if statuses[0].name == Some(name) then StatusState(statuses[0], state)
    else StatusOverride(statuses[1..], name, state)
  }

  /** The loop over `containerStatuses` that stops at the first status of the requested container. */
  method ApplyContainerStatus(statuses: seq<ContainerStatus>, name: string, phaseState: ContainerState)
    returns (state: ContainerState)
    ensures state == StatusOverride(statuses, name, phaseState)
  {
    state := phaseState;
    var i := 0;
    while i < |statuses|
      invariant 0 <= i <= |statuses|
      invariant state == phaseState
      invariant StatusOverride(statuses[i..], name, phaseState) == StatusOverride(statuses, name, phaseState)
    {
      var cs := statuses[i];
      if cs.name == Some(name) {
        if cs.running {
          state := Running;
        } else if cs.terminated {
          state := Exited;
        } else if cs.waiting {
          state := Created;
        }
        break;
      }
      assert statuses[i..][1..] == statuses[i + 1..];
      i := i + 1;
    }
  }

  /**
   * Only the first status carrying the container's name counts: it decides the state, and
   * when no status carries the name the phase decides.
   */
  lemma {:induction false} StatusOverrideFirst(statuses: seq<ContainerStatus>, name: string, state: ContainerState)
    ensures (forall i :: 0 <= i < |statuses| ==> statuses[i].name != Some(name)) ==>
      StatusOverride(statuses, name, state) == state
    ensures forall i :: (&& 0 <= i < |statuses| && statuses[i].name == Some(name)
                         && (forall j :: 0 <= j < i ==> statuses[j].name != Some(name))) ==>
      StatusOverride(statuses, name, state) == StatusState(statuses[i], state)
  {
    if forall i :: 0 <= i < |statuses| ==> statuses[i].name != Some(name) {
      StatusOverrideNone(statuses, name, state);
    }
    forall i | (&& 0 <= i < |statuses| && statuses[i].name == Some(name)
                && (forall j :: 0 <= j < i ==> statuses[j].name != Some(name)))
      ensures StatusOverride(statuses, name, state) == StatusState(statuses[i], state)
    {
      StatusOverrideAt(statuses, name, state, i);
    }
  }

  lemma {:induction false} StatusOverrideNone(statuses: seq<ContainerStatus>, name: string, state: ContainerState)
    requires forall i :: 0 <= i < |statuses| ==> statuses[i].name != Some(name)
    ensures StatusOverride(statuses, name, state) == state
    decreases |statuses|
  {
    if statuses != [] {
      var rest := statuses[1..];
      assert statuses[0].name != Some(name);
      assert forall i :: 0 <= i < |rest| ==> rest[i] == statuses[i + 1];
      StatusOverrideNone(rest, name, state);
    }
  }

  lemma {:induction false} StatusOverrideAt(statuses: seq<ContainerStatus>, name: string, state: ContainerState, i: nat)
    requires i < |statuses| && statuses[i].name == Some(name)
    requires forall j :: 0 <= j < i ==> statuses[j].name != Some(name)
    ensures StatusOverride(statuses, name, state) == StatusState(statuses[i], state)
    decreases i
  {
    if i > 0 {
      var rest := statuses[1..];
      assert statuses[0].name != Some(name);
      assert rest[i - 1] == statuses[i];
      forall j | 0 <= j < i - 1
        ensures rest[j].name != Some(name)
      {
        assert rest[j] == statuses[j + 1];
      }
      StatusOverrideAt(rest, name, state, i - 1);
    }
  }

  /** The image of the first container; an empty `containers` list is an `IndexError`. */
  function FirstImage(images: Option<seq<Option<string>>>): Result<string, Failure> {
    match images
    case None => Ok("")
    case Some(list) => if list == [] then Err(IndexError) else Ok(list[0].GetOr(""))
  }

  /** The container record `get_container_info` builds from the pod: no ports, the pod's name. */
  function InfoFromPod(data: PodData, pod: string, podContainer: Option<string>): Result<ContainerInfo, Failure> {
    var phaseState := PhaseToState(Lower(data.phase.GetOr("Unknown")));
    var state := if Truthy(podContainer) then StatusOverride(data.containerStatuses, podContainer.value, phaseState)
                 else phaseState;
    match FirstImage(data.containerImages)
    case Err(f) => Err(f)
    case Ok(image) => Ok(ContainerInfo(Take(data.uid.GetOr(""), 12), pod, state, image, data.podIp, map[], data.labels))
  }

  /** The same, with the status loop. */
  method ReadPod(data: PodData, pod: string, podContainer: Option<string>) returns (r: Result<ContainerInfo, Failure>)
    ensures r == InfoFromPod(data, pod, podContainer)
  {
    var state := PhaseToState(Lower(data.phase.GetOr("Unknown")));
    if Truthy(podContainer) {
      state := ApplyContainerStatus(data.containerStatuses, podContainer.value, state);
    }
    var image := FirstImage(data.containerImages);
    if image.Err? {
      return Err(image.error);
    }
    return Ok(ContainerInfo(Take(data.uid.GetOr(""), 12), pod, state, image.value, data.podIp, map[], data.labels));
  }

  /** A failed `get pod` whose stderr says so means the pod does not exist. */
  predicate SaysNotFound(stderr: string) {
    Contains(stderr, "NotFound") || Contains(Lower(stderr), "not found")
  }

  // ---------------------------------------------------------------------------
  // Shell lines for `kubectl exec`
  // ---------------------------------------------------------------------------

  /** `k=v` for every variable, in order. */
  function Assignments(env: seq<(string, string)>): (r: seq<string>)
    ensures |r| == |env| && forall i :: 0 <= i < |env| ==> r[i] == env[i].0 + "=" + env[i].1
  {
    seq(|env|, i requires 0 <= i < |env| => env[i].0 + "=" + env[i].1)
  }

  /** `export k=v;` for every variable, in order. */
  function Exports(env: seq<(string, string)>): (r: seq<string>)
    ensures |r| == |env| && forall i :: 0 <= i < |env| ==> r[i] == "export " + env[i].0 + "=" + env[i].1 + ";"
  {
    seq(|env|, i requires 0 <= i < |env| => "export " + env[i].0 + "=" + env[i].1 + ";")
  }

  /** `shell`, then `cd <dir> && ` before it when a directory is given, then the setup words before that. */
  function WithSetup(setup: seq<string>, workdir: Option<string>, shell: string): string {
    var inDir := if Truthy(workdir) then "cd " + workdir.value + " && " + shell else shell;
    if setup == [] then inDir else Join(" ", setup) + " " + inDir
  }

  /**
   * The line is the setup (space-joined, then a space), then the change of directory, then the
   * command text unchanged at its end.
   */
  lemma WithSetupLayout(setup: seq<string>, workdir: Option<string>, shell: string)
    ensures var setupPrefix := if setup == [] then "" else Join(" ", setup) + " ";
      var dirPrefix := if Truthy(workdir) then "cd " + workdir.value + " && " else "";
      var line := WithSetup(setup, workdir, shell);
      && line == setupPrefix + dirPrefix + shell
      && |line| >= |shell| && line[|line| - |shell|..] == shell
  {
    var setupPrefix := if setup == [] then "" else Join(" ", setup) + " ";
    var dirPrefix := if Truthy(workdir) then "cd " + workdir.value + " && " else "";
    var line := WithSetup(setup, workdir, shell);
    assert line == setupPrefix + dirPrefix + shell;
    assert line[|setupPrefix + dirPrefix|..] == shell;
  }

  /** The line `exec_command` hands to `sh -c`. */
  function ExecShell(command: seq<string>, env: seq<(string, string)>, workdir: Option<string>): string {
    WithSetup(Assignments(env), workdir, Join(" ", command))
  }

  /** The line `launch_with_debugpy` hands to `sh -c`: in the background under `nohup`, output discarded. */
  function LaunchLine(debugpyCommand: seq<string>, env: seq<(string, string)>, workdir: Option<string>): string {
    "nohup " + WithSetup(Exports(env), workdir, Join(" ", debugpyCommand)) + " > /dev/null 2>&1 &"
  }

  /** The arguments of `kubectl exec`; everything after `--` goes to the shell as one argument. */
  function ExecArgs(pod: string, namespace: string, podContainer: Option<string>, line: string): seq<string> {
    ["exec", pod, "-n", namespace] + (if Truthy(podContainer) then ["-c", podContainer.value] else [])
      + ["--", "sh", "-c", line]
  }

  /**
   * The pod and namespace come first, the container only when one is named, and the shell line
   * is the last argument right after `-- sh -c`, so none of its words reaches `kubectl`.
   */
  lemma ExecArgsShape(pod: string, namespace: string, podContainer: Option<string>, line: string)
    ensures var args := ExecArgs(pod, namespace, podContainer, line);
      && |args| == (if Truthy(podContainer) then 10 else 8)
      && args[..4] == ["exec", pod, "-n", namespace]
      && (Truthy(podContainer) ==> args[4..6] == ["-c", podContainer.value])
      && args[|args| - 4..] == ["--", "sh", "-c", line]
  {
  }

  /** The launched line starts `nohup`, discards the output, and ends with the debugpy command's text before that. */
  lemma LaunchLineLayout(debugpyCommand: seq<string>, env: seq<(string, string)>, workdir: Option<string>)
    ensures var line := LaunchLine(debugpyCommand, env, workdir);
      var tail := Join(" ", debugpyCommand) + " > /dev/null 2>&1 &";
      && "nohup " <= line
      && |line| >= 6 + |tail| && line[|line| - |tail|..] == tail
      && (env != [] ==> "nohup export " <= line)
  {
    LaunchLineTail(debugpyCommand, env, workdir);
    if env != [] {
      LaunchLineExports(debugpyCommand, env, workdir);
    }
  }

  lemma LaunchLineTail(debugpyCommand: seq<string>, env: seq<(string, string)>, workdir: Option<string>)
    ensures var line := LaunchLine(debugpyCommand, env, workdir);
      var tail := Join(" ", debugpyCommand) + " > /dev/null 2>&1 &";
      && "nohup " <= line
      && |line| >= 6 + |tail| && line[|line| - |tail|..] == tail
  {
    var shell := Join(" ", debugpyCommand);
    WithSetupLayout(Exports(env), workdir, shell);
    WrappedEnds("nohup ", WithSetup(Exports(env), workdir, shell), shell, " > /dev/null 2>&1 &");
  }

  lemma LaunchLineExports(debugpyCommand: seq<string>, env: seq<(string, string)>, workdir: Option<string>)
    requires env != []
    ensures "nohup export " <= LaunchLine(debugpyCommand, env, workdir)
  {
    var exports := Exports(env);
    var inner := WithSetup(exports, workdir, Join(" ", debugpyCommand));
    JoinStartsWithFirst(exports);
    assert "export " <= exports[0];
    assert "export " <= inner by {
      assert inner[..|exports[0]|] == exports[0];
    }
    assert LaunchLine(debugpyCommand, env, workdir) == ("nohup " + inner) + " > /dev/null 2>&1 &";
    assert "nohup export " == "nohup " + "export ";
  }

  /** A join of several parts starts with the first. */
  lemma JoinStartsWithFirst(parts: seq<string>)
    requires parts != []
    ensures parts[0] <= Join(" ", parts)
  {
    if |parts| > 1 {
      assert Join(" ", parts) == parts[0] + (" " + Join(" ", parts[1..]));
    }
  }

  // ---------------------------------------------------------------------------
  // Port-forward readiness
  // ---------------------------------------------------------------------------

  /**
   * One attempt to connect to the forwarded local port while the ten-second window lasts: it
   * connects, or it is refused and the forward process has (`Some`) or has not exited by then.
   */
  datatype Probe = Connected | Refused(exited: Option<(int, string)>)

  datatype Readiness = Ready | Died(exitCode: int, stderr: string) | NeverReady

  /** The first attempt that connects or sees the process dead decides; none of them: never ready. */
  function ProbeOutcome(probes: seq<Probe>): Readiness
    decreases |probes|
  {
    if probes == [] then NeverReady
    else match probes[0]
      case Connected => Ready
      case Refused(Some(exit)) => Died(exit.0, exit.1)
      case Refused(None) => ProbeOutcome(probes[1..])
  }

  /** The first `n` attempts were refused while the process still ran. */
  ghost predicate StillWaiting(probes: seq<Probe>, n: nat)
    requires n <= |probes|
  {
    forall j :: 0 <= j < n ==> probes[j] == Refused(None)
  }

  /**
   * The forward is ready exactly when an attempt connects before the process is seen dead,
   * it died exactly when an attempt sees it dead before any connects, and it is never ready
   * exactly when every attempt is refused with the process running.
   */
  lemma {:induction false} ProbeOutcomeMeans(probes: seq<Probe>)
    ensures ProbeOutcome(probes) == Ready <==>
      exists i :: 0 <= i < |probes| && probes[i] == Connected && StillWaiting(probes, i)
    ensures ProbeOutcome(probes) == NeverReady <==> StillWaiting(probes, |probes|)
    ensures forall code, err :: ProbeOutcome(probes) == Died(code, err) <==>
      exists i :: 0 <= i < |probes| && probes[i] == Refused(Some((code, err))) && StillWaiting(probes, i)
    decreases |probes|
  {
    if probes != [] {
      var rest := probes[1..];
      ProbeOutcomeMeans(rest);
      assert forall j :: 0 <= j < |rest| ==> rest[j] == probes[j + 1];
      if probes[0] == Refused(None) {
        assert forall n: nat :: 1 <= n <= |probes| ==> (StillWaiting(probes, n) <==> StillWaiting(rest, n - 1));
        if ProbeOutcome(probes) == Ready {
          var i :| 0 <= i < |rest| && rest[i] == Connected && StillWaiting(rest, i);
          assert StillWaiting(probes, i + 1);
        }
        forall code, err | ProbeOutcome(probes) == Died(code, err)
          ensures exists i :: 0 <= i < |probes| && probes[i] == Refused(Some((code, err))) && StillWaiting(probes, i)
        {
          var i :| 0 <= i < |rest| && rest[i] == Refused(Some((code, err))) && StillWaiting(rest, i);
          assert StillWaiting(probes, i + 1);
        }
      } else {
        assert !StillWaiting(probes, |probes|);
        assert forall i :: 0 < i <= |probes| ==> !StillWaiting(probes, i);
      }
    }
  }

  /**
   * The readiness loop: it stops at the first attempt that connects, and when an attempt finds
   * the process dead it records the exit code and stderr the process left.
   */
  method AwaitForward(proc: Process, probes: seq<Probe>) returns (outcome: Readiness)
    requires proc.Running()
    modifies proc
    ensures outcome == ProbeOutcome(probes)
    ensures outcome.Died? ==> proc.returnCode == Some(outcome.exitCode) && proc.stderr == outcome.stderr
    ensures !outcome.Died? ==> proc.Running() && proc.stderr == old(proc.stderr)
    ensures proc.signals == old(proc.signals)
  {
    var i := 0;
    while i < |probes|
      invariant 0 <= i <= |probes|
      invariant ProbeOutcome(probes[i..]) == ProbeOutcome(probes)
      invariant proc.Running() && proc.stderr == old(proc.stderr) && proc.signals == old(proc.signals)
    {
      match probes[i] {
        case Connected =>
          return Ready;
        case Refused(exited) =>
          if exited.Some? {
            proc.Exit(exited.value.0, exited.value.1);
            return Died(exited.value.0, exited.value.1);
          }
      }
      assert probes[i..][1..] == probes[i + 1..];
      i := i + 1;
    }
    return NeverReady;
  }

  /** The key a port-forward is cached under: `namespace/pod:port`. */
  function ForwardKey(namespace: string, pod: string, port: int): string {
    namespace + "/" + pod + ":" + IntToString(port)
  }

  /**
   * Two forwards share a key only when they are for the same pod and port, as long as the
   * namespace has no `/` (which a Kubernetes name never has).
   */
  lemma ForwardKeyInjective(ns1: string, pod1: string, port1: int, ns2: string, pod2: string, port2: int)
    requires '/' !in ns1 && '/' !in ns2
    requires ForwardKey(ns1, pod1, port1) == ForwardKey(ns2, pod2, port2)
    ensures ns1 == ns2 && pod1 == pod2 && port1 == port2
  {
    KeyPartsInjective(ns1, pod1, port1, ns2, pod2, port2, '/');
  }

  /** The error `get_debugpy_endpoint` raises when the forward does not come up. */
  function ForwardError(message: string, pod: string, port: int): (e: ContainerError)
    ensures e.kind == Generic && e.code == DefaultCode && e.message == message
    ensures e.details == map["pod" := Text(pod), "port" := Number(port)]
  {
    GenericError(message, map["pod" := Text(pod), "port" := Number(port)])
  }

  /** A dead forward's message quotes at most 500 characters of its stderr. */
  const ForwardStderrLimit := 500

  /** `KubernetesRuntime(context, kubeconfig)`: the adapter and its cache of port-forwards. */
  class KubernetesRuntime {
    const context: Option<string>
    const kubeconfig: Option<string>
    /** Open port-forwards by `ForwardKey`. */
    var portForwards: map<string, PortForward>

    constructor (context: Option<string>, kubeconfig: Option<string>)
      ensures this.context == context && this.kubeconfig == kubeconfig
      ensures portForwards == map[]
    {
      this.context := context;
      this.kubeconfig := kubeconfig;
      portForwards := map[];
    }

    /** `runtime_type`: always Kubernetes. */
    function RuntimeType(): ContainerRuntime {
      ContainerRuntime.Kubernetes
    }

    /** `cli_command`: always `kubectl`. */
    function CliCommand(): string {
      Kubectl
    }

    /** `_build_base_args`: `--context` and `--kubeconfig`, each only when set. */
    function BaseArgs(): (args: seq<string>)
      ensures |args| == (if Truthy(context) then 2 else 0) + (if Truthy(kubeconfig) then 2 else 0)
      ensures Truthy(context) ==> args[..2] == ["--context", context.value]
      ensures Truthy(kubeconfig) ==> args[|args| - 2..] == ["--kubeconfig", kubeconfig.value]
    {
      (if Truthy(context) then ["--context", context.value] else [])
        + (if Truthy(kubeconfig) then ["--kubeconfig", kubeconfig.value] else [])
    }

    /** `_run_kubectl`: every command goes to `kubectl` with the base arguments first. */
    function KubectlCall(args: seq<string>, timeout: real): (call: Call)
      ensures |call.argv| == 1 + |BaseArgs()| + |args|
      ensures call.argv[0] == Kubectl && call.argv[1..1 + |BaseArgs()|] == BaseArgs()
      ensures call.argv[1 + |BaseArgs()|..] == args && call.timeout == timeout
    {
      var argv := [Kubectl] + BaseArgs() + args;
      assert argv[1..1 + |BaseArgs()|] == BaseArgs();
      Call(argv, timeout)
    }

    /** `is_available`: `kubectl` is on the path and `kubectl version --client --output=json` succeeds. */
    function IsAvailable(which: string -> bool, cli: Cli): (available: bool)
      ensures available <==>
        && which(Kubectl)
        && cli(Call([Kubectl, "version", "--client", "--output=json"], 5.0)).Finished?
        && cli(Call([Kubectl, "version", "--client", "--output=json"], 5.0)).exitCode == 0
    {
      ToolAvailable(which(Kubectl), cli, [Kubectl, "version", "--client", "--output=json"])
    }

    function GetPodCall(namespace: string, pod: string): Call {
      KubectlCall(["get", "pod", pod, "-n", namespace, "-o", "json"], 30.0)
    }

    /** `get_container_info`. */
    function GetContainerInfo(target: ContainerTarget, cli: Cli, decode: PodDecoder): Run<ContainerInfo> {
      var (namespace, pod) := PodIdentifier(target);
      if pod == "" then Run(Err(Raised(NotFoundError("(empty)", Kubectl))), [])
      else
        var call := GetPodCall(namespace, pod);
        var res := RunCli(cli(call));
        if !res.Success() then
          if SaysNotFound(res.stderr) then Run(Err(Raised(NotFoundError(namespace + "/" + pod, Kubectl))), [call])
          else Run(Err(Raised(GenericError("Failed to get pod info: " + res.stderr,
            map["pod" := Text(pod), "namespace" := Text(namespace)]))), [call])
        else match decode(res.stdout)
          case None => Run(Err(Raised(GenericError("Failed to parse pod info: " + Take(res.stdout, 200),
            map["pod" := Text(pod)]))), [call])
          case Some(data) => Run(InfoFromPod(data, pod, target.podContainer), [call])
    }

    /** `exec_command`; the `user` argument is accepted by the source and ignored, so it is not modelled. */
    function ExecCommand(target: ContainerTarget, command: seq<string>, env: seq<(string, string)>,
                         workdir: Option<string>, timeout: real, cli: Cli, decode: PodDecoder): Run<ExecResult>
    {
      var (namespace, pod) := PodIdentifier(target);
      if pod == "" then Run(Err(Raised(NotFoundError("(empty)", Kubectl))), [])
      else
        var info := GetContainerInfo(target, cli, decode);
        match info.result
        case Err(f) => Run(Err(f), info.calls)
        case Ok(i) =>
          if !i.IsRunning() then Run(Err(Raised(NotRunningError(namespace + "/" + pod, i.state.Value()))), info.calls)
          else
            var call := KubectlCall(ExecArgs(pod, namespace, target.podContainer, ExecShell(command, env, workdir)), timeout);
            Run(Ok(RunCli(cli(call))), info.calls + [call])
    }

    /** `exec_command` with no environment or working directory, as the helpers call it. */
    function KubeExec(target: ContainerTarget, cli: Cli, decode: PodDecoder): Exec {
      (command: seq<string>, timeout: real) => ExecCommand(target, command, [], None, timeout, cli, decode)
    }

    function FindPythonProcesses(target: ContainerTarget, cli: Cli, decode: PodDecoder): Run<seq<ProcessInfo>> {
      FindProcesses(KubeExec(target, cli, decode), ["cat", "/proc/*/cmdline"])
    }

    function CheckDebugpyInstalled(target: ContainerTarget, cli: Cli, decode: PodDecoder): Run<bool> {
      CheckInstalled(KubeExec(target, cli, decode))
    }

    function InstallDebugpy(target: ContainerTarget, cli: Cli, decode: PodDecoder): Run<()> {
      Install(KubeExec(target, cli, decode), KubernetesInstallers)
    }

    function InjectDebugpy(target: ContainerTarget, pid: int, port: int, cli: Cli, decode: PodDecoder): Run<()> {
      Inject(KubeExec(target, cli, decode), KubernetesInstallers, pid, port, PodPtraceInstructions)
    }

    /** The `exec` that starts debugpy under `nohup`, with a ten-second timeout. */
    function LaunchCall(target: ContainerTarget, command: seq<string>, port: int, waitForClient: bool,
                        env: seq<(string, string)>, workdir: Option<string>): Call
    {
      var (namespace, pod) := PodIdentifier(target);
      KubectlCall(ExecArgs(pod, namespace, target.podContainer,
        LaunchLine(DebugpyCommand(port, waitForClient, command), env, workdir)), 10.0)
    }

    /** `launch_with_debugpy`: install debugpy when missing, then start it in the background. */
    function LaunchWithDebugpy(target: ContainerTarget, command: seq<string>, port: int, waitForClient: bool,
                               env: seq<(string, string)>, workdir: Option<string>, cli: Cli, decode: PodDecoder): Run<()>
    {
      var ready := EnsureInstalled(KubeExec(target, cli, decode), KubernetesInstallers);
      if ready.result.Err? then ready
      else
        var call := LaunchCall(target, command, port, waitForClient, env, workdir);
        var res := RunCli(cli(call));
        if res.Success() then Run(Ok(()), ready.calls + [call])
        else Run(Err(Raised(ExecError(Join(" ", DebugpyCommand(port, waitForClient, command)), res.exitCode, res.stderr))),
          ready.calls + [call])
    }

    /** The `kubectl port-forward pod/<pod> -n <namespace> <local>:<port>` command. */
    function PortForwardArgv(namespace: string, pod: string, localPort: int, port: int): seq<string> {
      [Kubectl] + BaseArgs() + ["port-forward", "pod/" + pod, "-n", namespace, IntToString(localPort) + ":" + IntToString(port)]
    }

    /**
     * `get_debugpy_endpoint`: reuse the cached forward while it is active; otherwise start
     * `kubectl port-forward` on `freePort` (what binding port 0 returned), wait for it, and
     * cache it only once it accepts connections. `spawnError` is the exception starting the
     * process raises, if any; the process answers SIGTERM as `onTerminate` says.
     */
    method GetDebugpyEndpoint(target: ContainerTarget, port: int, freePort: int, spawnError: Option<string>,
                              probes: seq<Probe>, onTerminate: Option<int>)
      returns (r: Result<Endpoint, Failure>, spawned: Process?)
      modifies this
      ensures var (namespace, pod) := PodIdentifier(target);
        var key := ForwardKey(namespace, pod, port);
        var reused := key in old(portForwards) && old(portForwards[key].IsActive());
        && (reused ==>
              r == Ok(Endpoint(Loopback, old(portForwards[key].localPort))) && spawned == null
              && portForwards == old(portForwards))
        && (!reused && spawnError.Some? ==>
              r == Err(OSError(spawnError.value)) && spawned == null && portForwards == old(portForwards))
        && (!reused && spawnError.None? ==>
              (&& spawned != null && fresh(spawned)
               && spawned.argv == PortForwardArgv(namespace, pod, freePort, port)
               && spawned.envOverrides == map[] && spawned.onTerminate == onTerminate))
        && (!reused && spawnError.None? && ProbeOutcome(probes) == Ready ==>
              (&& r == Ok(Endpoint(Loopback, freePort))
               && key in portForwards && portForwards == old(portForwards)[key := portForwards[key]]
               && fresh(portForwards[key]) && portForwards[key].process == spawned
               && portForwards[key].localPort == freePort && portForwards[key].remotePort == port
               && portForwards[key].IsActive()))
        && (!reused && spawnError.None? && ProbeOutcome(probes).Died? ==>
              (&& r == Err(Raised(ForwardError("Port-forward failed: "
                     + Take(ProbeOutcome(probes).stderr, ForwardStderrLimit), pod, port)))
               && portForwards == old(portForwards)
               && spawned.returnCode == Some(ProbeOutcome(probes).exitCode)))
        && (!reused && spawnError.None? && ProbeOutcome(probes) == NeverReady ==>
              (&& r == Err(Raised(ForwardError("Port-forward timeout", pod, port)))
               && portForwards == old(portForwards)
               && spawned.Running() && spawned.signals == [SigKill]))
    {
      var (namespace, pod) := PodIdentifier(target);
      var key := ForwardKey(namespace, pod, port);
      if key in portForwards && portForwards[key].IsActive() {
        return Ok(Endpoint(Loopback, portForwards[key].localPort)), null;
      }
      if spawnError.Some? {
        return Err(OSError(spawnError.value)), null;
      }
      var proc := new Process(PortForwardArgv(namespace, pod, freePort, port), map[], onTerminate);
      var pf := new PortForward(freePort, port, proc);
      var outcome := AwaitForward(proc, probes);
      match outcome {
        case Died(_, stderr) =>
          r := Err(Raised(ForwardError("Port-forward failed: " + Take(stderr, ForwardStderrLimit), pod, port)));
        case NeverReady =>
          proc.Kill();
          r := Err(Raised(ForwardError("Port-forward timeout", pod, port)));
        case Ready =>
          portForwards := portForwards[key := pf];
          r := Ok(Endpoint(Loopback, freePort));
      }
      spawned := proc;
    }

    /** `cleanup_port_forwards`: close every cached forward, then empty the cache. */
    method CleanupPortForwards()
      modifies this, set k | k in portForwards :: portForwards[k]
      modifies set k | k in portForwards && portForwards[k].process != null :: portForwards[k].process
      ensures portForwards == map[]
      ensures forall k :: k in old(portForwards) ==> old(portForwards)[k].closed && !old(portForwards)[k].IsActive()
      ensures forall k :: k in old(portForwards) && !old(portForwards[k].closed) && old(portForwards)[k].process != null ==>
        old(portForwards)[k].process.returnCode.Some?
    {
      var pending := portForwards.Keys;
      var forwards := portForwards;
      while pending != {}
        invariant pending <= forwards.Keys && portForwards == forwards
        invariant forall k :: k in forwards.Keys - pending ==> forwards[k].closed
        invariant forall k :: k in forwards.Keys && forwards[k].closed && !old(forwards[k].closed) && forwards[k].process != null ==>
          forwards[k].process.returnCode.Some?
        decreases pending
      {
        var k :| k in pending;
        forwards[k].Close();
        pending := pending - {k};
      }
      portForwards := map[];
    }
  }

  /** The remediation steps of a refused injection in a pod. */
  const PodPtraceInstructions: seq<string> := [
    "Pod lacks SYS_PTRACE capability required for debugger injection.",
    "",
    "Solutions:",
    "1. Add SYS_PTRACE capability to your pod spec:",
    "   securityContext:",
    "     capabilities:",
    "       add: ['SYS_PTRACE']",
    "",
    "2. Use debug_container_launch to start a new debuggable process",
    "3. Pre-install debugpy and call debugpy.listen() in your code"]

  /**
   * A pod without a name is rejected before `kubectl` runs; otherwise exactly one `get pod`
   * runs, a failed one is a not-found error naming `namespace/pod` exactly when its stderr says
   * so, and a successful one yields a record named after the pod, with no ports.
   */
  lemma GetContainerInfoOutcome(rt: KubernetesRuntime, target: ContainerTarget, cli: Cli, decode: PodDecoder)
    ensures var r := rt.GetContainerInfo(target, cli, decode);
      var (namespace, pod) := PodIdentifier(target);
      var res := RunCli(cli(rt.GetPodCall(namespace, pod)));
      && (pod == "" ==> r == Run(Err(Raised(NotFoundError("(empty)", Kubectl))), []))
      && (pod != "" ==> r.calls == [rt.GetPodCall(namespace, pod)])
      && (pod != "" && !res.Success() ==>
            (&& r.result.Err?
             && (r.result.error == Raised(NotFoundError(namespace + "/" + pod, Kubectl)) <==> SaysNotFound(res.stderr))))
      && (r.result.Ok? ==>
            (&& res.Success() && decode(res.stdout).Some?
             && r.result.value.name == pod && r.result.value.ports == map[]
             && r.result.value.ipAddress == decode(res.stdout).value.podIp))
  {
    var (namespace, pod) := PodIdentifier(target);
    if pod != "" {
      var res := RunCli(cli(rt.GetPodCall(namespace, pod)));
      if !res.Success() && !SaysNotFound(res.stderr) {
        assert rt.GetContainerInfo(target, cli, decode).result.error.error.kind == Generic;
      }
    }
  }

  /**
   * The command runs only in a pod that `get pod` found running, as the last invocation; the
   * shell line carries the command text at its end.
   */
  lemma ExecCommandGuarded(rt: KubernetesRuntime, target: ContainerTarget, command: seq<string>,
                           env: seq<(string, string)>, workdir: Option<string>, timeout: real, cli: Cli, decode: PodDecoder)
    ensures var r := rt.ExecCommand(target, command, env, workdir, timeout, cli, decode);
      var (namespace, pod) := PodIdentifier(target);
      var info := rt.GetContainerInfo(target, cli, decode);
      && (r.result.Ok? <==> info.result.Ok? && info.result.value.IsRunning())
      && (r.result.Ok? ==>
            r.calls == [rt.GetPodCall(namespace, pod),
                        rt.KubectlCall(ExecArgs(pod, namespace, target.podContainer, ExecShell(command, env, workdir)), timeout)])
      && (info.result.Ok? && !info.result.value.IsRunning() ==>
            r.result == Err(Raised(NotRunningError(namespace + "/" + pod, info.result.value.state.Value()))))
  {
    GetContainerInfoOutcome(rt, target, cli, decode);
  }

  /** Kubernetes tries `pip`, then `python -m pip`; there is no `pip3` step. */
  lemma KubernetesInstallOrder(rt: KubernetesRuntime, target: ContainerTarget, cli: Cli, decode: PodDecoder)
    ensures var exec := rt.KubeExec(target, cli, decode);
      && (Succeeded(InstallRun(exec, ["pip"])) ==>
            rt.InstallDebugpy(target, cli, decode) == Run(Ok(()), InstallRun(exec, ["pip"]).calls))
      && (Failed(InstallRun(exec, ["pip"])) ==>
            rt.InstallDebugpy(target, cli, decode).calls
              == InstallRun(exec, ["pip"]).calls + InstallRun(exec, ["python", "-m", "pip"]).calls)
  {
    InstallChainOfTwo(rt.KubeExec(target, cli, decode), ["pip"], ["python", "-m", "pip"]);
  }

  /** debugpy is launched only once it is installed, as the last invocation, under `nohup`. */
  lemma LaunchAfterInstall(rt: KubernetesRuntime, target: ContainerTarget, command: seq<string>, port: int,
                           waitForClient: bool, env: seq<(string, string)>, workdir: Option<string>, cli: Cli, decode: PodDecoder)
    ensures var r := rt.LaunchWithDebugpy(target, command, port, waitForClient, env, workdir, cli, decode);
      var ready := EnsureInstalled(rt.KubeExec(target, cli, decode), KubernetesInstallers);
      var call := rt.LaunchCall(target, command, port, waitForClient, env, workdir);
      && (ready.result.Err? ==> r == ready)
      && (ready.result.Ok? ==>
            (&& r.calls == ready.calls + [call]
             && call.timeout == 10.0
             && "nohup " <= call.argv[|call.argv| - 1]
             && (r.result.Ok? <==> RunCli(cli(call)).Success())))
  {
    var (namespace, pod) := PodIdentifier(target);
    var line := LaunchLine(DebugpyCommand(port, waitForClient, command), env, workdir);
    LaunchLineLayout(DebugpyCommand(port, waitForClient, command), env, workdir);
    var args := ExecArgs(pod, namespace, target.podContainer, line);
    ExecArgsShape(pod, namespace, target.podContainer, line);
    assert args[|args| - 1] == line;
    var call := rt.LaunchCall(target, command, port, waitForClient, env, workdir);
    assert call.argv[|call.argv| - 1] == args[|args| - 1];
  }
}
