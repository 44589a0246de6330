# Remote attach pipeline of polybugger-mcp, modelled in Dafny

polybugger-mcp attaches a Python debugger (debugpy) to processes running in containers.
It drives three container runtimes through their command-line tools: `docker`, `podman`
(Docker with another executable) and `kubectl`. Each adapter can:

- look a container or pod up and turn the tool's JSON into a `ContainerInfo`;
- run commands inside it;
- list its Python processes;
- check for debugpy and install it;
- inject debugpy into a running process, or launch a program under it;
- work out the host and port where a debugger client reaches debugpy.

Kubernetes reaches the pod through `kubectl port-forward` processes, which the adapter caches. An
SSH tunnel manager starts `ssh -L` tunnels to remote hosts. A factory maps runtime names to
adapter classes.

The model has one module per source file:

| module | file |
|---|---|
| `ContainerTargets` | `models/container.py` |
| `ContainerModels` | `containers/models.py` |
| `ContainerErrors` | the error classes of `containers/base.py` |
| `AdapterBase` | the endpoint decision of `containers/base.py`, plus the logic that `docker.py` and `kubernetes.py` share line for line |
| `Docker` | `docker.py` |
| `Podman` | `podman.py` |
| `Kubernetes` | `kubernetes.py` |
| `SshTunnels` | `ssh_tunnel.py` |
| `Factory` | `factory.py` |

Three modules support the others:

- `Wrappers`: `Option` and `Result`.
- `Strings`: Python's `str.lower`, `split`, `strip` and `startswith`, plus `int()` and `float()` of a token.
- `Processes`: a child process handle.

**Oracles.** Everything outside the program becomes a parameter:

- A command-line tool is a function `Cli` from an invocation (argv and timeout) to its outcome:
  it finished with an exit code and output, it timed out, or it could not be started.
- JSON decoding is a `Decoder` or `PodDecoder` from stdout to the fields the adapter reads.
- `shutil.which` is a predicate on the tool name.

Each operation returns its result together with the list of commands it ran, so the order of
those commands can be stated.

**Long-lived objects are classes with their fields:**

- `PortForward` and `SSHTunnel` have a `closed` flag and a `Process`.
- `KubernetesRuntime` owns the `portForwards` cache.
- `SSHTunnelManager` owns the `tunnels` map.
- `RuntimeRegistry` holds the factory's registry.

**The world's behaviour during a wait is given as a parameter.** For example:

- the sequence of port probes a readiness loop sees;
- whether each connection attempt of a tunnel connected;
- the exit of a process;
- how a process answers SIGTERM.

**Loops are methods proved equal to a specification function.** Examples: the port-binding loop,
the container-status loop, the argv builder, the process listing, the readiness loops and the
cleanup loops.

## Model

| member | source | states |
|---|---|---|
| `ContainerTargets.RuntimeFromValue` | src/polybugger_mcp/models/container.py:12-17 | `ContainerRuntime(s)`: a member is found only for its exact value, and none at all when no member has that value |
| `ContainerTargets.RuntimeValueRoundTrip` | src/polybugger_mcp/models/container.py:12-17 | every runtime is recovered from its value, and the three members are all there is |
| `ContainerTargets.RuntimeValuesDistinct` | src/polybugger_mcp/models/container.py:12-17 | two runtimes with the same value are the same runtime |
| `ContainerTargets.Or` | src/polybugger_mcp/models/container.py:84-89 | Python's `a or b` on an optional string: the value when it is a non-empty string, the fallback otherwise |
| `ContainerTargets.PathMapping.ToRemote` | src/polybugger_mcp/models/container.py:30-35 | a local path that does not start with the local root is returned unchanged |
| `ContainerTargets.PathMapping.ToLocal` | src/polybugger_mcp/models/container.py:37-42 | a remote path that does not start with the remote root is returned unchanged |
| `ContainerTargets.RebaseShape` | src/polybugger_mcp/models/container.py:30-42 | a rewritten path is the other root without trailing `/`, one `/`, then a suffix of the original path with no leading `/` |
| `ContainerTargets.PathMappingRoundTrip` | src/polybugger_mcp/models/container.py:30-42 | if the roots have no trailing `/`, `root/rel` maps to `otherRoot/rel`, in both directions, and mapping back gives it again |
| `ContainerTargets.RebaseOnto` | src/polybugger_mcp/models/container.py:30-35 | a path `root/rel` is moved onto the other root with `rel` kept |
| `ContainerTargets.PathMappingExamples` | tests/unit/test_containers.py:31-47 | `/home/user/project/src/main.py` maps to `/app/src/main.py` and back |
| `ContainerTargets.PathMappingOutsideExamples` | tests/unit/test_containers.py:31-47 | `/other/path` is left alone in both directions |
| `ContainerTargets.SiblingDirectoryIsRewritten` | src/polybugger_mcp/models/container.py:30-35 | as written, `/home/user/project2/x.py` becomes `/app/2/x.py`, which maps back to a different path (see Findings) |
| `ContainerTargets.RebaseTail` | src/polybugger_mcp/models/container.py:30-35 | rebasing `root + tail` keeps `tail` without its leading `/` |
| `ContainerTargets.RebaseOnBoundary` | src/polybugger_mcp/models/container.py:30-42 | corrected rebasing: only the root itself and paths below it (whole path components) are rewritten, onto the other root |
| `ContainerTargets.OnBoundarySiblingUntouched` | src/polybugger_mcp/models/container.py:30-35 | the corrected rebasing leaves the sibling directory `/home/user/project2/x.py` alone |
| `ContainerTargets.OnBoundaryRoundTrip` | src/polybugger_mcp/models/container.py:30-42 | the corrected rebasing keeps the round trip in both directions |
| `ContainerTargets.OnBoundaryOnto` | src/polybugger_mcp/models/container.py:30-35 | the corrected rebasing moves `root/rel` onto the other root |
| `ContainerTargets.NewSSHConfig` | src/polybugger_mcp/models/container.py:45-56 | an SSH config defaults to port 22 and has no key, password or jump host |
| `ContainerTargets.NewTarget` | src/polybugger_mcp/models/container.py:59-81 | a target defaults to namespace `default`, with no container, pod or SSH settings |
| `ContainerTargets.ContainerTarget.Identifier` | src/polybugger_mcp/models/container.py:84-89 | Kubernetes identifies a target as `namespace/pod[/container]`; the other runtimes use the name, else the ID, else `unknown`, and never the empty string |
| `ContainerTargets.KubernetesIdentifierSplits` | src/polybugger_mcp/models/container.py:84-89 | with no `/` in its parts, a Kubernetes identifier splits on `/` back into namespace, pod and container |
| `ContainerTargets.IdentifierExamples` | tests/unit/test_containers.py:49-73 | the unit tests' identifiers: `my-container`, `production/my-pod`, `production/my-pod/app`, `unknown` |
| `ContainerModels.StateValuesDistinct` | src/polybugger_mcp/containers/models.py:11-21 | the eight container states have distinct values |
| `ContainerModels.IsRunningExactlyRunning` | src/polybugger_mcp/containers/models.py:44-47 | a container is running exactly when its state's value is `running` |
| `ContainerModels.ContainerInfo.IsRunning` | src/polybugger_mcp/containers/models.py:44-47 | `is_running`; its property is stated by `ContainerModels.IsRunningExactlyRunning` |
| `ContainerModels.SuccessExamples` | src/polybugger_mcp/containers/models.py:109-112 | the unit tests' cases: exit code 0 without a timeout succeeds, exit code 1 fails, a timed-out command fails; every success has exit code 0 |
| `ContainerModels.ExecResult.Success` | src/polybugger_mcp/containers/models.py:109-112 | `success`; its cases are stated by `ContainerModels.SuccessExamples` |
| `ContainerModels.FromPsLine` | src/polybugger_mcp/containers/models.py:65-97 | `from_ps_line`; what it parses is stated by `ContainerModels.FromPsLineFields`, `ContainerModels.FromPsLineName` and the rows after them |
| `ContainerModels.FromPsLineFields` | src/polybugger_mcp/containers/models.py:65-97 | a `ps aux` line parses exactly when it has 11 fields (10 splits), an integer PID and two float percentages; the record takes user, PID, command line and the Python flag from those fields; the fields come from `Strings.SplitMax` and the record from `ContainerModels.FromPsFields` |
| `ContainerModels.FromPsLineName` | src/polybugger_mcp/containers/models.py:65-97 | the process name is the base name of the first word of the command line, and the Python flag says whether `python` occurs in the lower-cased name or starts the command line |
| `ContainerModels.ShortLineRejected` | src/polybugger_mcp/containers/models.py:65-97 | a line with fewer than 11 words gives no process |
| `ContainerModels.InvalidLineRejected` | tests/unit/test_containers.py:163-181 | `invalid` gives no process |
| `ContainerModels.PythonPsLineExample` | tests/unit/test_containers.py:163-181 | the unit test's `python app.py` line gives PID 1, user `root`, name `python`, and is a Python process |
| `ContainerModels.NginxPsLineExample` | tests/unit/test_containers.py:163-181 | the unit test's `nginx` line gives PID 2 and is not a Python process |
| `ContainerModels.PortForward.Close` | src/polybugger_mcp/containers/models.py:134-151 | close marks the forward closed and no longer active, and stops a running process (terminate, then kill if it is still running); a second close changes nothing |
| `ContainerModels.PortForward.IsActive` | src/polybugger_mcp/containers/models.py:124-132 | `is_active`: not closed, with a process that has no return code; `Close` ensures it is false afterwards |
| `Processes.Process.Stop` | src/polybugger_mcp/containers/models.py:143-151 | stopping sends SIGTERM; a process that does not exit on it gets SIGKILL; the process has exited afterwards |
| `Processes.Process.Kill` | src/polybugger_mcp/containers/kubernetes.py:507-508 | kill signals a running process and leaves its exit status and stderr alone |
| `ContainerErrors.CodesIdentifyKind` | src/polybugger_mcp/containers/base.py:14-71 | every subclass fixes its own code; the codes are distinct and differ from the base default `CONTAINER_ERROR` |
| `ContainerErrors.GenericError` | src/polybugger_mcp/containers/base.py:14-27 | the base error keeps its message and details and has the default code |
| `ContainerErrors.ErrorWithCode` | src/polybugger_mcp/containers/base.py:14-27 | the base error with an explicit code keeps it |
| `ContainerErrors.NotFoundError` | src/polybugger_mcp/containers/base.py:29-38 | `CONTAINER_NOT_FOUND`, with details `container` and `runtime` and nothing else |
| `ContainerErrors.NotRunningError` | src/polybugger_mcp/containers/base.py:40-49 | `CONTAINER_NOT_RUNNING`, with details `container` and `state` |
| `ContainerErrors.ExecError` | src/polybugger_mcp/containers/base.py:51-60 | `CONTAINER_EXEC_ERROR`, with details `command`, `exit_code` and the full `stderr` |
| `ContainerErrors.SecurityError` | src/polybugger_mcp/containers/base.py:62-71 | `CONTAINER_SECURITY_ERROR`; missing instructions become an empty list, which the details repeat |
| `ContainerErrors.ErrorMessagesName` | src/polybugger_mcp/containers/base.py:29-49 | the not-found message names the container; the not-running message names the container and its state |
| `ContainerErrors.ExecErrorMessage` | src/polybugger_mcp/containers/base.py:51-60 | the exec error message quotes the command, the exit code and at most 200 characters of stderr |
| `ContainerErrors.ErrorExamples` | tests/unit/test_containers.py:187-202 | the unit tests' error codes, details and instructions |
| `AdapterBase.RunCli` | src/polybugger_mcp/containers/docker.py:83-146 | `_run_cli`: a finished command gives its exit code and output; a timeout gives exit code -1 marked timed out; a tool that cannot be started gives exit code -1 with the error as stderr; only exit code 0 succeeds |
| `AdapterBase.ToolAvailable` | src/polybugger_mcp/containers/docker.py:59-77 | a tool is available exactly when it is on the path and its version query exits with 0 within 5 seconds |
| `AdapterBase.EndpointDecision` | src/polybugger_mcp/containers/base.py:236-272 | a published port is reached on 127.0.0.1 at the host port; otherwise the container's own address at the same port; with neither there is a `NO_ENDPOINT` error listing the mapped ports and the address |
| `AdapterBase.EndpointFor` | src/polybugger_mcp/containers/base.py:253-272 | the endpoint decision; its three outcomes are stated by `AdapterBase.EndpointDecision` |
| `AdapterBase.CollectPythonProcesses` | src/polybugger_mcp/containers/docker.py:295-303 | the listing loop skips the header and keeps the lines that parse as Python processes, in order |
| `AdapterBase.CollectKept` | src/polybugger_mcp/containers/docker.py:298-301 | for any line parser, appends in order the parsed lines that are Python processes, and nothing else |
| `AdapterBase.PythonProcessesMembers` | src/polybugger_mcp/containers/docker.py:295-303 | a process is listed exactly when some line parses to it and it is a Python process; the list is no longer than the listing |
| `AdapterBase.FindProcessesFallback` | src/polybugger_mcp/containers/docker.py:267-303 | `find_python_processes` runs `ps aux`, and the fallback listing only when `ps aux` ran and failed; when both fail the result is empty; errors from exec propagate |
| `AdapterBase.FindProcesses` | src/polybugger_mcp/containers/docker.py:267-303 | `find_python_processes` on any `exec_command`; its outcomes are stated by `AdapterBase.FindProcessesFallback` |
| `AdapterBase.CheckInstalled` | src/polybugger_mcp/containers/docker.py:305-312 | debugpy counts as installed exactly when the import check succeeds |
| `AdapterBase.InstallOutcome` | src/polybugger_mcp/containers/docker.py:314-344 | install succeeds exactly when some installer succeeds after all earlier ones failed; when all fail, it raises an exec error with the last exit code and stderr, after running all of them |
| `AdapterBase.TryInstallersStopsAt` | src/polybugger_mcp/containers/docker.py:314-344 | the chain stops at the first installer that does not fail, having run exactly the ones before it; about the chain `AdapterBase.TryInstallers` |
| `AdapterBase.Install` | src/polybugger_mcp/containers/docker.py:314-344 | `install_debugpy` on any installer chain; its outcome is stated by `AdapterBase.InstallOutcome` |
| `AdapterBase.EnsureInstalledSkips` | src/polybugger_mcp/containers/docker.py:355-357 | nothing is installed when the check finds debugpy; otherwise the install chain follows the check |
| `AdapterBase.EnsureInstalled` | src/polybugger_mcp/containers/docker.py:355-357 | check, then install when missing; stated by `AdapterBase.EnsureInstalledSkips` |
| `AdapterBase.DebugpyCommand` | src/polybugger_mcp/containers/docker.py:420-432 | `python -m debugpy --listen 0.0.0.0:<port>`, then `--wait-for-client` exactly when asked, then the program's argv |
| `AdapterBase.ClassifyInjectionCases` | src/polybugger_mcp/containers/docker.py:374-402 | a failed injection is a security error, carrying the runtime's remediation steps, exactly when its lower-cased stderr mentions `operation not permitted`, `ptrace` or `eperm`; otherwise it is an exec error with the exit code and stderr |
| `AdapterBase.MarkersIgnoreCase` | src/polybugger_mcp/containers/docker.py:376-381 | a marker written in any letter case, such as `EPERM`, is recognised |
| `AdapterBase.InjectAfterInstall` | src/polybugger_mcp/containers/docker.py:348-402 | the attach command runs, last, only once debugpy is known to be installed, and its result is classified |
| `AdapterBase.Inject` | src/polybugger_mcp/containers/docker.py:348-402 | `inject_debugpy` on any `exec_command`; its order and classification are stated by `AdapterBase.InjectAfterInstall` |
| `AdapterBase.OperationsUseTool` | src/polybugger_mcp/containers/docker.py:98 | when `exec_command` only invokes one tool, so do the process listing and the debugpy check, install and injection built on it |
| `Docker.DockerRuntime.CliCommand` | src/polybugger_mcp/containers/docker.py:52-57 | the override when it is a non-empty string, else `docker` |
| `Docker.NewDockerRuntime` | src/polybugger_mcp/containers/docker.py:39-50 | a Docker adapter has runtime type `DOCKER` and keeps its override |
| `Docker.ContainerIdentifier` | src/polybugger_mcp/containers/docker.py:79-81 | the container name, else the ID; empty exactly when neither is given |
| `Docker.IsAvailableQuery` | src/polybugger_mcp/containers/docker.py:59-77 | available exactly when the tool is on the path and `<tool> version --format {{.Server.Version}}` exits with 0 |
| `Docker.StateFromStatus` | src/polybugger_mcp/containers/docker.py:178-188 | the status lookup, defaulting to `unknown`; it has no contract of its own, and its properties are stated by `Docker.StateFromStatusRoundTrip` |
| `Docker.StateFromStatusRoundTrip` | src/polybugger_mcp/containers/docker.py:178-188 | every state is recovered from its value; an unknown status gives `unknown` |
| `Docker.FirstAddress` | src/polybugger_mcp/containers/docker.py:191-196 | the first non-empty network address, and none exactly when no network has one |
| `Docker.FindAddress` | src/polybugger_mcp/containers/docker.py:191-196 | the loop stopping at the first address finds exactly that address |
| `Docker.ParsePorts` | src/polybugger_mcp/containers/docker.py:199-206 | the port loop computes exactly the port map specified below, including its failures |
| `Docker.PortMappingsFail` | src/polybugger_mcp/containers/docker.py:199-206 | parsing fails exactly when some entry's key or host port is not an integer; this is `Docker.PortMappings`, built from `Docker.EntryMapping` and `Docker.HostPortValue` |
| `Docker.PortMappingsFromLast` | src/polybugger_mcp/containers/docker.py:199-206 | every mapped container port comes from an entry with bindings, the last such entry for that port wins, and its host port is non-zero; about `Docker.PortMappings` |
| `Docker.PortMappingsCover` | src/polybugger_mcp/containers/docker.py:199-206 | every entry whose first binding has a non-zero host port is in the map; about `Docker.PortMappings` |
| `Docker.ReadInspect` | src/polybugger_mcp/containers/docker.py:178-228 | the record: a 12-character ID prefix, the name without its leading `/`, the state from the lower-cased status, and the image (empty if missing); the record is `Docker.InfoFromInspect` |
| `Docker.GetContainerInfoOutcome` | src/polybugger_mcp/containers/docker.py:148-228 | a target without name or ID fails before any tool runs; otherwise exactly one inspect runs; a failed inspect is a not-found error exactly when stderr says `No such` or `not found`, and a generic error otherwise; a successful one gives the record; the inspect is `Docker.InspectCall` and the stderr test `Docker.SaysNotFound` |
| `Docker.GetContainerInfo` | src/polybugger_mcp/containers/docker.py:148-228 | `get_container_info`; its outcomes are stated by `Docker.GetContainerInfoOutcome` |
| `Docker.EnvFlagsPairs` | src/polybugger_mcp/containers/docker.py:252-254 | each variable becomes `-e` and then `KEY=value`, in order |
| `Docker.BuildExecArgs` | src/polybugger_mcp/containers/docker.py:249-263 | the argv built step by step is `exec`, then `-d` if detached, the variables, `-w` and `-u` when given, the container, and the command |
| `Docker.ExecOptionsShape` | src/polybugger_mcp/containers/docker.py:249-261 | `exec` comes first, `-d` exactly when detached, then `-e` pairs, then the working directory and user options only when given |
| `Docker.ExecArgvShape` | src/polybugger_mcp/containers/docker.py:249-263 | the argv is the options, the container, then the command unchanged |
| `Docker.ExecCommandGuarded` | src/polybugger_mcp/containers/docker.py:230-265 | the command runs only in a container that inspect found running, as the last invocation after that inspect; any other state is a not-running error naming that state |
| `Docker.ExecCommand` | src/polybugger_mcp/containers/docker.py:230-265 | `exec_command`; its guard and invocations are stated by `Docker.ExecCommandGuarded` |
| `Docker.FindPythonProcesses` | src/polybugger_mcp/containers/docker.py:267-303 | `find_python_processes` with the `/proc` fallback; stated by `AdapterBase.FindProcessesFallback` on `Docker.DockerExec` |
| `Docker.CheckDebugpyInstalled` | src/polybugger_mcp/containers/docker.py:305-312 | `check_debugpy_installed`; stated by `AdapterBase.CheckInstalled` on `Docker.DockerExec` |
| `Docker.PtraceInstructions` | src/polybugger_mcp/containers/docker.py:384-395 | ten remediation lines |
| `Docker.DockerInstallOrder` | src/polybugger_mcp/containers/docker.py:314-344 | the installers are `pip`, `pip3`, then `python -m pip`, each tried only after the previous ones failed; the remediation names the adapter's own tool |
| `Docker.InstallDebugpy` | src/polybugger_mcp/containers/docker.py:314-344 | `install_debugpy`; its order is stated by `Docker.DockerInstallOrder` and its outcome by `AdapterBase.InstallOutcome` |
| `Docker.InjectDebugpy` | src/polybugger_mcp/containers/docker.py:348-402 | `inject_debugpy`; stated by `AdapterBase.InjectAfterInstall` and `AdapterBase.ClassifyInjectionCases`, with `Docker.PtraceInstructions` |
| `Docker.LaunchCallShape` | src/polybugger_mcp/containers/docker.py:434-448 | the launch is `<tool> exec -d …`, with the container right before the debugpy command and a 10-second timeout |
| `Docker.LaunchDetached` | src/polybugger_mcp/containers/docker.py:406-455 | debugpy is launched, last, only once it is installed; the launch succeeds exactly when that call does; a failure names the space-joined debugpy command |
| `Docker.LaunchWithDebugpy` | src/polybugger_mcp/containers/docker.py:406-455 | `launch_with_debugpy`; stated by `Docker.LaunchDetached` and `Docker.LaunchCallShape` |
| `Docker.EndpointAfterInspect` | src/polybugger_mcp/containers/base.py:236-272 | the Docker endpoint needs only the inspect: a published port on 127.0.0.1, else the container's address; an inspect error propagates |
| `Docker.GetDebugpyEndpoint` | src/polybugger_mcp/containers/base.py:236-272 | the inherited `get_debugpy_endpoint`; stated by `Docker.EndpointAfterInspect` |
| `Docker.EveryCallUsesTool` | src/polybugger_mcp/containers/docker.py:98 | every invocation of the lookup, `exec`, the process listing, the debugpy check, install, injection and launch, and the endpoint lookup runs the adapter's tool first |
| `Podman.NewPodmanRuntime` | src/polybugger_mcp/containers/podman.py:11-25 | Podman is the Docker adapter with the override `podman` and runtime type `PODMAN` |
| `Podman.PodmanUsesItsTool` | src/polybugger_mcp/containers/podman.py:18-25 | the Podman adapter's tool is `podman` and its runtime type `PODMAN`, where the plain Docker adapter's are `docker` and `DOCKER`; its inspect invocation starts with `podman` |
| `Podman.EveryCallUsesPodman` | src/polybugger_mcp/containers/podman.py:18-20 | every invocation of every operation of the Podman adapter runs `podman` |
| `Podman.PodmanInstructions` | src/polybugger_mcp/containers/docker.py:388 | Podman's remediation steps tell the user to restart with `podman run --cap-add=SYS_PTRACE ...` |
| `Podman.PodmanIsDocker` | src/polybugger_mcp/containers/podman.py:11-25 | lookup and exec under Podman are exactly Docker's with the `podman` override |
| `Kubernetes.PodIdentifier` | src/polybugger_mcp/containers/kubernetes.py:68-72 | the namespace, or `default` when it is empty; the pod name, else the container name, else empty |
| `Kubernetes.PodIdentifierDefaults` | src/polybugger_mcp/containers/kubernetes.py:68-72 | a default target is in namespace `default`; the container name stands in for a missing pod name |
| `Kubernetes.PhaseToStateCases` | src/polybugger_mcp/containers/kubernetes.py:192-200 | `running` exactly for the `Running` phase; the four known phases map to created, running, exited and dead; any other phase is `unknown` |
| `Kubernetes.PhaseToState` | src/polybugger_mcp/containers/kubernetes.py:192-200 | the phase lookup; its cases are stated by `Kubernetes.PhaseToStateCases` |
| `Kubernetes.ApplyContainerStatus` | src/polybugger_mcp/containers/kubernetes.py:206-217 | the status loop computes the override specified below |
| `Kubernetes.StatusOverrideFirst` | src/polybugger_mcp/containers/kubernetes.py:206-217 | the first status naming the container decides: running, else terminated (exited), else waiting (created), else the phase's state; without such a status the phase's state stands |
| `Kubernetes.StatusOverride` | src/polybugger_mcp/containers/kubernetes.py:206-217 | the container-status override; stated by `Kubernetes.StatusOverrideFirst` and computed by `Kubernetes.ApplyContainerStatus` |
| `Kubernetes.ReadPod` | src/polybugger_mcp/containers/kubernetes.py:219-227 | the pod record: named after the pod, the pod IP, no ports, the first container's image, and `IndexError` for an empty container list; the record is `Kubernetes.InfoFromPod` and the image `Kubernetes.FirstImage` |
| `Kubernetes.KubernetesRuntime.IsAvailable` | src/polybugger_mcp/containers/kubernetes.py:74-92 | available exactly when `kubectl` is on the path and `kubectl version --client --output=json` (without the context options) exits with 0 within 5 seconds |
| `Kubernetes.Assignments` | src/polybugger_mcp/containers/kubernetes.py:258-260 | each variable becomes `KEY=value` |
| `Kubernetes.Exports` | src/polybugger_mcp/containers/kubernetes.py:421-423 | each variable becomes `export KEY=value;` |
| `Kubernetes.WithSetupLayout` | src/polybugger_mcp/containers/kubernetes.py:255-260 | the shell line (`Kubernetes.ExecShell`) is the variables, then `cd <dir> && ` when a directory is given, then the command |
| `Kubernetes.ExecArgsShape` | src/polybugger_mcp/containers/kubernetes.py:249-262 | `exec <pod> -n <ns> [-c <container>] -- sh -c <line>`, with the line as the last argument |
| `Kubernetes.LaunchLineLayout` | src/polybugger_mcp/containers/kubernetes.py:418-426 | `Kubernetes.LaunchLine` is `nohup `, the exports, `cd <dir> && ` when a directory is given, the debugpy command, then ` > /dev/null 2>&1 &`; the lemma proves the line starts with `nohup `, starts with `nohup export ` when variables are given, and ends with the joined debugpy command followed by ` > /dev/null 2>&1 &` |
| `Kubernetes.ProbeOutcomeMeans` | src/polybugger_mcp/containers/kubernetes.py:485-512 | the readiness loop ends ready at the first probe that connects, dead at the first refused probe after which the process has exited, and not ready when neither happens within the probes |
| `Kubernetes.ProbeOutcome` | src/polybugger_mcp/containers/kubernetes.py:485-512 | the readiness loop's outcome on a probe sequence; stated by `Kubernetes.ProbeOutcomeMeans` |
| `Kubernetes.AwaitForward` | src/polybugger_mcp/containers/kubernetes.py:485-506 | the loop ends with that outcome; a dead forward carries the process's exit code and stderr; the loop sends no signal |
| `Kubernetes.ForwardKeyInjective` | src/polybugger_mcp/containers/kubernetes.py:446 | the cache key `ns/pod:port` determines namespace, pod and port when the namespace has no `/` |
| `Kubernetes.ForwardKey` | src/polybugger_mcp/containers/kubernetes.py:446 | the cache key `ns/pod:port`; stated by `Kubernetes.ForwardKeyInjective` |
| `Kubernetes.ForwardError` | src/polybugger_mcp/containers/kubernetes.py:502-512 | port-forward errors use the default code, with details `pod` and `port` |
| `Kubernetes.KubernetesRuntime.RuntimeType` | src/polybugger_mcp/containers/kubernetes.py:49-52 | `runtime_type` is always `KUBERNETES`; stated for created adapters by `Factory.BuiltinRuntimeTypes` |
| `Kubernetes.KubernetesRuntime.CliCommand` | src/polybugger_mcp/containers/kubernetes.py:54-57 | `cli_command` is always `kubectl`; stated for created adapters by `Factory.BuiltinRuntimeTypes` |
| `Factory.Adapter.RuntimeType` | src/polybugger_mcp/containers/base.py:81-85 | an adapter's `runtime_type`; stated by `Factory.BuiltinRuntimeTypes` and `Factory.CreateBuiltinByName` |
| `Factory.Adapter.CliCommand` | src/polybugger_mcp/containers/base.py:87-91 | an adapter's `cli_command`; stated by `Factory.BuiltinRuntimeTypes` and `Factory.CreateBuiltinByName` |
| `Kubernetes.KubernetesRuntime.BaseArgs` | src/polybugger_mcp/containers/kubernetes.py:59-66 | `--context <c>` and then `--kubeconfig <k>`, each only when set |
| `Kubernetes.KubernetesRuntime.KubectlCall` | src/polybugger_mcp/containers/kubernetes.py:94-157 | every kubectl run is `kubectl`, then the base args, then the subcommand |
| `Kubernetes.KubernetesRuntime.GetDebugpyEndpoint` | src/polybugger_mcp/containers/kubernetes.py:439-515 | an active cached forward is reused without spawning; a spawn error propagates; otherwise `port-forward` on a fresh local port is started and cached only once ready; a forward that dies reports at most 500 characters of its stderr; one that never becomes ready is killed and reported as a timeout; the cache is otherwise unchanged |
| `Kubernetes.KubernetesRuntime.CleanupPortForwards` | src/polybugger_mcp/containers/kubernetes.py:517-521 | every cached forward is closed and inactive afterwards, every one that was open has its process stopped, and the cache is empty |
| `Kubernetes.GetContainerInfoOutcome` | src/polybugger_mcp/containers/kubernetes.py:159-227 | a pod without a name fails before kubectl runs; otherwise exactly one `get pod` runs; a failure is a not-found error naming `ns/pod` exactly when stderr says so; success gives the record; the stderr test is `Kubernetes.SaysNotFound` |
| `Kubernetes.KubernetesRuntime.GetContainerInfo` | src/polybugger_mcp/containers/kubernetes.py:159-227 | `get_container_info`; stated by `Kubernetes.GetContainerInfoOutcome` |
| `Kubernetes.ExecCommandGuarded` | src/polybugger_mcp/containers/kubernetes.py:229-264 | the command runs only in a pod found running, as the last invocation; a pod in any other state is a not-running error naming `ns/pod` and its state |
| `Kubernetes.KubernetesRuntime.ExecCommand` | src/polybugger_mcp/containers/kubernetes.py:229-264 | `exec_command`; stated by `Kubernetes.ExecCommandGuarded` and `Kubernetes.ExecArgsShape` |
| `Kubernetes.KubernetesRuntime.FindPythonProcesses` | src/polybugger_mcp/containers/kubernetes.py:266-294 | `find_python_processes` with the `/proc` fallback; stated by `AdapterBase.FindProcessesFallback` on `Kubernetes.KubernetesRuntime.KubeExec` |
| `Kubernetes.KubernetesRuntime.CheckDebugpyInstalled` | src/polybugger_mcp/containers/kubernetes.py:296-303 | `check_debugpy_installed`; stated by `AdapterBase.CheckInstalled` |
| `Kubernetes.KubernetesInstallOrder` | src/polybugger_mcp/containers/kubernetes.py:305-325 | Kubernetes tries `pip`, then `python -m pip`, with no `pip3` step |
| `Kubernetes.KubernetesRuntime.InstallDebugpy` | src/polybugger_mcp/containers/kubernetes.py:305-327 | `install_debugpy`; stated by `Kubernetes.KubernetesInstallOrder` and `AdapterBase.InstallOutcome` |
| `Kubernetes.KubernetesRuntime.InjectDebugpy` | src/polybugger_mcp/containers/kubernetes.py:329-382 | `inject_debugpy`; stated by `AdapterBase.InjectAfterInstall` and `AdapterBase.ClassifyInjectionCases` |
| `Kubernetes.LaunchAfterInstall` | src/polybugger_mcp/containers/kubernetes.py:384-435 | debugpy is launched, last, only once installed, as a `nohup` shell line with a 10-second timeout; it succeeds exactly when that call does |
| `Kubernetes.KubernetesRuntime.LaunchWithDebugpy` | src/polybugger_mcp/containers/kubernetes.py:384-437 | `launch_with_debugpy`; stated by `Kubernetes.LaunchAfterInstall` and `Kubernetes.LaunchLineLayout` |
| `SshTunnels.SSHTunnel.WaitReady` | src/polybugger_mcp/containers/ssh_tunnel.py:63-86 | ready exactly when some connection attempt connected |
| `SshTunnels.SSHTunnel.Close` | src/polybugger_mcp/containers/ssh_tunnel.py:88-108 | close marks the tunnel closed and inactive, and stops a running `ssh` (terminate, then kill); a second close changes nothing |
| `SshTunnels.SSHTunnel.IsActive` | src/polybugger_mcp/containers/ssh_tunnel.py:49-56 | `is_active`: not closed, with a process that has no return code; `Close` ensures it is false afterwards |
| `SshTunnels.LocalEndpointParses` | src/polybugger_mcp/containers/ssh_tunnel.py:58-61 | `local_endpoint` splits on `:` into `127.0.0.1` and a number that parses back to the local port |
| `SshTunnels.TunnelKeyInjective` | src/polybugger_mcp/containers/ssh_tunnel.py:122-124 | the key `host:remote_host:remote_port` determines all three when the SSH host has no `:` |
| `SshTunnels.TunnelKey` | src/polybugger_mcp/containers/ssh_tunnel.py:122-124 | the store key `host:remote_host:remote_port`; stated by `SshTunnels.TunnelKeyInjective` |
| `SshTunnels.SshOptions` | src/polybugger_mcp/containers/ssh_tunnel.py:165-182 | the fixed part of the `ssh` command has sixteen words |
| `SshTunnels.SshCommandShape` | src/polybugger_mcp/containers/ssh_tunnel.py:165-206 | `ssh -N -L local:host:port` in batch mode on the configured port; `-i` exactly when a key is set; `-J [user@]jump` (with its own `-i`) exactly when a jump host is set; `user@host` last |
| `SshTunnels.SshCommand` | src/polybugger_mcp/containers/ssh_tunnel.py:165-206 | the `ssh` argv; its layout is stated by `SshTunnels.SshCommandShape` |
| `SshTunnels.AskpassOverridesCases` | src/polybugger_mcp/containers/ssh_tunnel.py:215-219 | the password prompt is switched off exactly when neither a key nor a password is given |
| `SshTunnels.SSHTunnelManager.ActiveCount` | src/polybugger_mcp/containers/ssh_tunnel.py:328-331 | the number of active tunnels is at most the number stored; it is zero exactly when no stored tunnel is active (so zero when none are stored or all are closed), and equals the number stored exactly when every stored tunnel is active |
| `SshTunnels.SSHTunnelManager.GetTunnel` | src/polybugger_mcp/containers/ssh_tunnel.py:275-293 | the stored tunnel for the key while it is active, else none; the tunnel found goes to the host and port asked for |
| `SshTunnels.SSHTunnelManager.CloseTunnel` | src/polybugger_mcp/containers/ssh_tunnel.py:295-312 | removes and closes the key's tunnel, stopping its process if it was open, and says whether there was one; only that tunnel and its process may change |
| `SshTunnels.SSHTunnelManager.CloseAll` | src/polybugger_mcp/containers/ssh_tunnel.py:314-326 | every tunnel is closed and every one that was open has its process stopped; the store is empty; the count returned is the number of tunnels there were; none remain active |
| `SshTunnels.SSHTunnelManager.CreateTunnel` | src/polybugger_mcp/containers/ssh_tunnel.py:126-273 | no `ssh` on the path, a missing key file and a spawn error each fail without starting anything; an active tunnel for the key is reused; otherwise `ssh` is started with the command above on the requested or a free port, and the tunnel is stored only when it came up |
| `SshTunnels.StartTunnel` | src/polybugger_mcp/containers/ssh_tunnel.py:221-265 | the tunnel is ready once an attempt connects; otherwise an exited `ssh` gives a start failure with its exit code and at most 500 characters of stderr, and a running one gives a 15-second timeout error |
| `Factory.UnsupportedRuntimeError` | src/polybugger_mcp/containers/factory.py:16-27 | `UNSUPPORTED_RUNTIME`, with the runtime name and all three runtime values as details |
| `Factory.ResolveRuntimeCases` | src/polybugger_mcp/containers/factory.py:68-75 | a name is accepted exactly when its lower case is a runtime value, and it gives the runtime with that value; an unknown name is reported as given; case does not matter |
| `Factory.ResolveEveryValue` | src/polybugger_mcp/containers/factory.py:68-75 | every runtime is found from its value in any letter case |
| `Factory.Instantiate` | src/polybugger_mcp/containers/factory.py:82 | each adapter class takes only its own keyword arguments (`cli_override`; none; `context` and `kubeconfig`); any other argument is a `TypeError` |
| `Factory.BuiltinRuntimeTypes` | src/polybugger_mcp/containers/docker.py:39-57 | each built-in class accepts exactly its own keyword arguments and creates an adapter of its own runtime type: Docker runs `docker` unless overridden, Podman runs `podman`, Kubernetes runs `kubectl` |
| `Factory.CreateBuiltinByName` | tests/unit/test_containers.py:105-121 | after the built-ins are registered, creating a runtime by its name in any letter case gives an adapter of that runtime type running `docker`, `podman` or `kubectl` |
| `Factory.RuntimeRegistry.Register` | src/polybugger_mcp/containers/factory.py:34-49 | registering sets the runtime's class; a new runtime goes last in iteration order, and a known one keeps its place |
| `Factory.RuntimeRegistry.RegisterBuiltins` | src/polybugger_mcp/containers/factory.py:128-162 | Docker, Podman and Kubernetes are registered, in that order |
| `Factory.RuntimeRegistry.SupportedRuntimes` | src/polybugger_mcp/containers/factory.py:98-104 | the values of the registered runtimes, in registration order; a value is listed exactly when its runtime is registered |
| `Factory.RuntimeRegistry.IsRuntimeSupported` | src/polybugger_mcp/containers/factory.py:107-120 | true exactly when the lower-cased name is the value of a registered runtime |
| `Factory.RuntimeRegistry.CreateRuntime` | src/polybugger_mcp/containers/factory.py:52-82 | an unknown name raises the unsupported error with the name as given; a runtime without a class raises it with the runtime's value; otherwise the registered class is instantiated with the keyword arguments |
| `Factory.RuntimeRegistry.CreateRuntimeForTarget` | src/polybugger_mcp/containers/factory.py:85-95 | the adapter for the target's runtime, with the same errors |
| `Factory.BuiltinsSupportEverything` | src/polybugger_mcp/containers/factory.py:98-120 | once the built-ins are registered, the supported list is `docker, podman, kubernetes` and every runtime name is supported in any letter case |
| `Strings.IntToStringRoundTrip` | src/polybugger_mcp/containers/ssh_tunnel.py:58-61 | a port written with `str()` parses back to the same number |
| `Strings.SplitMax` | src/polybugger_mcp/containers/models.py:71 | `line.split(None, 10)` gives at most 11 fields |
| `Strings.SplitMaxFields` | src/polybugger_mcp/containers/models.py:71 | every field is non-empty and starts with a non-space; every field but the last has no whitespace, and when fewer than `maxsplit` cuts were made, neither has the last |
| `Strings.SplitMaxLastIsSuffix` | src/polybugger_mcp/containers/models.py:71 | when all cuts are made, the last field is the rest of the line, a suffix of it |

## Left out

- Subprocesses, sockets, timeouts, `shutil.which`, `socket.bind(0)`, file checks and `~` expansion are oracles. A tool invoked the same way twice within one operation answers the same both times.
- JSON decoding is an oracle that returns the fields the adapters read. A malformed document is `None`. A field that JSON holds as `null` where the code expects a string (`Labels`, `HostPort`) is not modelled beyond `None`. The same goes for a `null` `State.Status` (docker.py:177) or `status.phase` (kubernetes.py:192): the source's `.lower()` then raises `AttributeError`, and the model reads the field as missing, which gives the state `unknown`.
- async/await, locks and the concurrency they guard are not modelled.
- `ContainerInfo.created` (models.py:32) is not modelled. It is a `datetime`, which Docker parses from `Created` with `fromisoformat` (docker.py:209-216), ignoring a `ValueError`; the Kubernetes adapter leaves it unset. `ContainerInfo` therefore has no creation time.
- `ContainerInfo.runtime_data` (models.py:42) is not modelled either. It is the whole decoded JSON document (docker.py:227, kubernetes.py:226), and nothing in these files reads it back.
- `ProcessInfo`'s CPU and memory percentages are stored as the text of their columns, checked to be literals `float()` accepts; their floating-point values are not computed, because floating point is not modelled.
- Python's `str.lower()` is modelled for ASCII letters and the Kelvin sign. A character whose lower case is not ASCII is kept unchanged. No comparison in these files can tell the difference.
- `int()` accepts ASCII digits, a sign, surrounding whitespace and single underscores between digits. Unicode digits are not modelled.
- `Docker.ExecCommand`: the `check` flag of `_run_cli` is not modelled, because no call in these files sets it.
- `Kubernetes.KubernetesRuntime.ExecCommand` has no `user` parameter: the source accepts one and ignores it.
- Environment variables are a sequence of pairs, not a dict. A key given twice is therefore passed twice: a dict would have kept one.
- `Kubernetes.KubernetesRuntime.CleanupPortForwards` and `SshTunnels.SSHTunnelManager.CloseAll` close in an unspecified order. The source closes in dict order, which no contract here depends on.
- The global tunnel manager (`get_tunnel_manager`) is not modelled, and neither is import-time registration in the factory. Each is an explicit object (`SSHTunnelManager`, `RuntimeRegistry`) that the caller creates.
- The MCP server, the debug session state machine, `__init__` re-exports, the examples and the end-to-end tests are not part of this model.
- `Factory.Instantiate` models the constructors' keyword parameters, not Python's full call semantics. A wrong value type is not checked.
- `Kubernetes.KubernetesRuntime.FindPythonProcesses` and the other `exec_command` users join argv with spaces and no quoting, exactly as the source does. The shell that later re-splits that line is not modelled.
- `SshTunnels.StartTunnel`: when the tunnel never comes up and `ssh` is still running, the source raises the timeout error and does not stop the process. The model keeps this: the process stays running with no signal sent. The Kubernetes port-forward kills its process in the same situation.

## Findings

| source | as written | input that shows it | evidently intended | confidence | as-written member | corrected member |
|---|---|---|---|---|---|---|
| src/polybugger_mcp/models/container.py:30-42 | `to_remote`/`to_local` test the root with `str.startswith`, a character prefix | local root `/home/user/project`, path `/home/user/project2/x.py` becomes `/app/2/x.py`, which maps back to `/home/user/project/2/x.py` | only the root and paths below it, by whole path components, are rewritten, so the round trip holds | not executed | `ContainerTargets.SiblingDirectoryIsRewritten` | `ContainerTargets.RebaseOnBoundary` (`ContainerTargets.OnBoundarySiblingUntouched`, `ContainerTargets.OnBoundaryRoundTrip`) |
