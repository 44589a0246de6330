/**
 * The Podman adapter (containers/podman.py): the Docker adapter with the command-line tool
 * overridden to `podman` and the runtime type reported as Podman; nothing else differs.
 */
module Podman {
  import opened Wrappers
  import opened Strings
  import opened ContainerTargets
  import opened ContainerErrors
  import opened AdapterBase
  import opened Docker

  /** `PodmanRuntime()`. */
  function NewPodmanRuntime(): (rt: DockerRuntime)
    ensures rt == DockerRuntime(Some("podman"), Podman)
  {
    DockerRuntime(Some("podman"), Podman)
  }

  /** Podman's tool is `podman` and its runtime type Podman, where Docker's are `docker` and Docker. */
  lemma PodmanUsesItsTool(target: ContainerTarget, container: string)
    ensures NewPodmanRuntime().CliCommand() == "podman"
    ensures NewPodmanRuntime().runtimeType == Podman && NewDockerRuntime(None).runtimeType == Docker
    ensures InspectCall(NewPodmanRuntime(), container).argv[0] == "podman"
    ensures NewDockerRuntime(None).CliCommand() == "docker"
  {
  }

  /** Every invocation of every Podman operation runs `podman`. */
  lemma EveryCallUsesPodman(target: ContainerTarget, cli: Cli, decode: Decoder, pid: int, port: int,
                            command: seq<string>, waitForClient: bool, env: seq<(string, string)>,
                            workdir: Option<string>, user: Option<string>, timeout: real)
    ensures var rt := NewPodmanRuntime();
      && AllTo(GetContainerInfo(rt, target, cli, decode).calls, "podman")
      && AllTo(ExecCommand(rt, target, command, env, workdir, timeout, user, cli, decode).calls, "podman")
      && AllTo(FindPythonProcesses(rt, target, cli, decode).calls, "podman")
      && AllTo(CheckDebugpyInstalled(rt, target, cli, decode).calls, "podman")
      && AllTo(InstallDebugpy(rt, target, cli, decode).calls, "podman")
      && AllTo(InjectDebugpy(rt, target, pid, port, cli, decode).calls, "podman")
      && AllTo(LaunchWithDebugpy(rt, target, command, port, waitForClient, env, workdir, cli, decode).calls, "podman")
      && AllTo(GetDebugpyEndpoint(rt, target, port, cli, decode).calls, "podman")
  {
    assert NewPodmanRuntime().CliCommand() == "podman";
    EveryCallUsesTool(NewPodmanRuntime(), target, cli, decode, pid, port, command, waitForClient, env, workdir, user, timeout);
  }

  /** The remediation steps tell the user to restart the container with `podman run`. */
  lemma PodmanInstructions(rt: DockerRuntime)
    requires rt == NewPodmanRuntime()
    ensures PtraceInstructions(rt)[3] == RestartLine("podman")
    ensures Contains(PtraceInstructions(rt)[3], "podman" + " run --cap-add=SYS_PTRACE ...")
  {
    assert rt.CliCommand() == "podman";
    PtraceNamesTool(rt);
  }

  /**
   * The only difference to Docker's own adapter with the tool overridden is the runtime type
   * it reports: looking a container up and running a command in it take the same steps.
   */
  lemma PodmanIsDocker(target: ContainerTarget, command: seq<string>, timeout: real, cli: Cli, decode: Decoder)
    ensures GetContainerInfo(NewPodmanRuntime(), target, cli, decode)
         == GetContainerInfo(NewDockerRuntime(Some("podman")), target, cli, decode)
    ensures DockerExec(NewPodmanRuntime(), target, cli, decode)(command, timeout)
         == DockerExec(NewDockerRuntime(Some("podman")), target, cli, decode)(command, timeout)
  {
    assert NewPodmanRuntime().CliCommand() == NewDockerRuntime(Some("podman")).CliCommand();
  }
}
