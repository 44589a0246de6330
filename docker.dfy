/**
 * The Docker adapter (containers/docker.py): it drives the `docker` command-line tool, or any
 * tool with the same interface named by `cliOverride` (Podman uses it). `docker inspect`'s JSON
 * is read by a decoder oracle into the few fields the adapter looks at.
 */
module Docker {
  import opened Wrappers
  import opened Strings
  import opened ContainerTargets
  import opened ContainerModels
  import opened ContainerErrors
  import opened AdapterBase

  /** `DockerRuntime(cli_override)` together with the runtime type it reports. */
  datatype DockerRuntime = DockerRuntime(cliOverride: Option<string>, runtimeType: ContainerRuntime) {
    /** The tool to run: the override when it is a non-empty string, `docker` otherwise. */
    function CliCommand(): (cli: string)
      ensures Truthy(cliOverride) ==> cli == cliOverride.value
      ensures !Truthy(cliOverride) ==> cli == "docker"
      ensures cli != ""
    {
      Or(cliOverride, "docker")
    }
  }

  function NewDockerRuntime(cliOverride: Option<string>): (rt: DockerRuntime)
    ensures rt.runtimeType == Docker && rt.cliOverride == cliOverride
  {
    DockerRuntime(cliOverride, Docker)
  }

  /** `_get_container_identifier`: the name, else the ID, else the empty string. */
  function ContainerIdentifier(target: ContainerTarget): (c: string)
    ensures c == "" <==> !Truthy(target.containerName) && !Truthy(target.containerId)
    ensures Truthy(target.containerName) ==> c == target.containerName.value
    ensures !Truthy(target.containerName) && Truthy(target.containerId) ==> c == target.containerId.value
  {
    Or(target.containerName, Or(target.containerId, ""))
  }

  /** `is_available`: the tool is on the path and `version --format {{.Server.Version}}` exits with 0. */
  function IsAvailable(rt: DockerRuntime, which: string -> bool, cli: Cli): bool {
    ToolAvailable(which(rt.CliCommand()), cli, [rt.CliCommand(), "version", "--format", "{{.Server.Version}}"])
  }

  /** The tool runs only when it is on the path, and only its version is queried. */
  lemma IsAvailableQuery(rt: DockerRuntime, which: string -> bool, cli: Cli)
    ensures IsAvailable(rt, which, cli) <==>
      && which(rt.CliCommand())
      && cli(Call([rt.CliCommand(), "version", "--format", "{{.Server.Version}}"], 5.0)).Finished?
      && cli(Call([rt.CliCommand(), "version", "--format", "{{.Server.Version}}"], 5.0)).exitCode == 0
  {
  }

  // ---------------------------------------------------------------------------
  // `docker inspect`
  // ---------------------------------------------------------------------------

  /** One entry of `NetworkSettings.Ports`: its key (`5678/tcp`) and the `HostPort` of each binding. */
  datatype PortEntry = PortEntry(key: string, hostPorts: seq<Option<string>>)

  /**
   * The fields of `docker inspect`'s JSON the adapter reads; a field that is absent is `None`
   * and takes the default the code gives it.
   */
  datatype InspectData = InspectData(
    status: Option<string>,
    networkAddresses: seq<Option<string>>,
    ports: seq<PortEntry>,
    id: Option<string>,
    name: Option<string>,
    image: Option<string>,
    labels: map<string, string>)

  /** `json.loads` followed by the reading of those fields; `None` is a decoding error. */
  type Decoder = string -> Option<InspectData>

  /** The states `docker inspect` reports, by their (lower-cased) status; anything else is unknown. */
  function StateFromStatus(status: string): ContainerState {
    if status == "created" then Created
    else if status == "running" then Running
    else if status == "paused" then Paused
    else if status == "restarting" then Restarting
    else if status == "removing" then Removing
    else if status == "exited" then Exited
    else if status == "dead" then Dead
    else Unknown
  }

  /** Every state is read back from its own value, and an unrecognised status means unknown. */
  lemma StateFromStatusRoundTrip(st: ContainerState, status: string)
    ensures StateFromStatus(st.Value()) == st
    ensures StateFromStatus(status) == Unknown || StateFromStatus(status).Value() == status
    ensures (forall s: ContainerState :: s.Value() != status) ==> StateFromStatus(status) == Unknown
  {
  }

  /** The first network address that is a non-empty string. */
  function FirstAddress(addresses: seq<Option<string>>): (ip: Option<string>)
    ensures ip.None? <==> forall i :: 0 <= i < |addresses| ==> !Truthy(addresses[i])
    ensures ip.Some? ==> exists i :: (&& 0 <= i < |addresses| && addresses[i] == ip && Truthy(ip)
                                      && forall j :: 0 <= j < i ==> !Truthy(addresses[j]))
    decreases |addresses|
  {
    if addresses == [] then None
    else if Truthy(addresses[0]) then addresses[0]
    else
      var rest := FirstAddress(addresses[1..]);
      assert forall i :: 0 <= i < |addresses| - 1 ==> addresses[1..][i] == addresses[i + 1];
      rest
  }

  /** The loop over the networks that stops at the first address. */
  method FindAddress(addresses: seq<Option<string>>) returns (ip: Option<string>)
    ensures ip == FirstAddress(addresses)
  {
    ip := None;
    var i := 0;
    while i < |addresses|
      invariant 0 <= i <= |addresses|
      invariant forall j :: 0 <= j < i ==> !Truthy(addresses[j])
      invariant FirstAddress(addresses) == FirstAddress(addresses[i..])
    {
      if Truthy(addresses[i]) {
        ip := addresses[i];
        break;
      }
      assert addresses[i..][1..] == addresses[i + 1..];
      i := i + 1;
    }
  }

  /** `int(binding.get("HostPort", 0))`: an absent host port is 0. */
  function HostPortValue(hostPort: Option<string>): Result<int, Failure> {
    match hostPort
    case None => Ok(0)
    case Some(text) => if ParseInt(text).Some? then Ok(ParseInt(text).value) else Err(ValueError(text))
  }

  /**
   * What one port entry contributes: nothing when it has no bindings or its first binding has
   * host port 0, else the container port (the key up to `/`) and the host port; a number that
   * does not parse is a `ValueError`.
   */
  function EntryMapping(e: PortEntry): Result<Option<(int, int)>, Failure> {
    if e.hostPorts == [] then Ok(None)
    else
      var portText := SplitOn(e.key, '/')[0];
      match ParseInt(portText)
      case None => Err(ValueError(portText))
      case Some(containerPort) =>
        match HostPortValue(e.hostPorts[0])
        case Err(f) => Err(f)
        case Ok(hostPort) => if hostPort == 0 then Ok(None) else Ok(Some((containerPort, hostPort)))
  }

  /** A way of reading what one port entry contributes. */
  type EntryReader = PortEntry -> Result<Option<(int, int)>, Failure>

  /** The port map, entry by entry; a later entry for the same container port wins. */
  function PortMappings(entries: seq<PortEntry>): Result<map<int, int>, Failure> {
    MappingsBy(EntryMapping, entries)
  }

  /** The port map for any way of reading an entry. */
  function MappingsBy(read: EntryReader, entries: seq<PortEntry>): Result<map<int, int>, Failure>
    decreases |entries|
  {
    if entries == [] then Ok(map[])
    else match MappingsBy(read, entries[..|entries| - 1])
      case Err(f) => Err(f)
      case Ok(m) => AddRead(m, read(entries[|entries| - 1]))
  }

  function AddRead(m: map<int, int>, r: Result<Option<(int, int)>, Failure>): Result<map<int, int>, Failure> {
    match r
    case Err(f) => Err(f)
    case Ok(None) => Ok(m)
    case Ok(Some(pair)) => Ok(m[pair.0 := pair.1])
  }

  function AddMapping(m: map<int, int>, e: PortEntry): Result<map<int, int>, Failure> {
    AddRead(m, EntryMapping(e))
  }

  /** The loop over `NetworkSettings.Ports`. */
  method ParsePorts(entries: seq<PortEntry>) returns (r: Result<map<int, int>, Failure>)
    ensures r == PortMappings(entries)
  {
    var ports: map<int, int> := map[];
    var i := 0;
    while i < |entries|
      invariant 0 <= i <= |entries|
      invariant PortMappings(entries[..i]) == Ok(ports)
    {
      PortMappingsStep(entries, i, ports);
      var e := entries[i];
      if e.hostPorts != [] {
        var portText := SplitOn(e.key, '/')[0];
        var containerPort := ParseInt(portText);
        if containerPort.None? {
          assert AddMapping(ports, e) == Err(ValueError(portText));
          PortMappingsErrSticks(entries, i + 1, ValueError(portText));
          return Err(ValueError(portText));
        }
        var hostPort := HostPortValue(e.hostPorts[0]);
        if hostPort.Err? {
          assert AddMapping(ports, e) == Err(hostPort.error);
          PortMappingsErrSticks(entries, i + 1, hostPort.error);
          return Err(hostPort.error);
        }
        if hostPort.value != 0 {
          ports := ports[containerPort.value := hostPort.value];
        }
      }
      i := i + 1;
    }
    assert entries[..i] == entries;
    return Ok(ports);
  }

  /** Reading one more entry into a map built so far. */
  lemma PortMappingsStep(entries: seq<PortEntry>, i: nat, ports: map<int, int>)
    requires i < |entries| && PortMappings(entries[..i]) == Ok(ports)
    ensures PortMappings(entries[..i + 1]) == AddMapping(ports, entries[i])
  {
    assert entries[..i + 1][..i] == entries[..i];
  }

  /** Once a prefix of the entries fails, the whole map fails with that prefix's error. */
  lemma {:induction false} PortMappingsErrSticks(entries: seq<PortEntry>, k: nat, f: Failure)
    requires k <= |entries| && PortMappings(entries[..k]) == Err(f)
    ensures PortMappings(entries) == Err(f)
    decreases |entries|
  {
    if k < |entries| {
      var init := entries[..|entries| - 1];
      assert init[..k] == entries[..k];
      PortMappingsErrSticks(init, k, f);
    } else {
      assert entries[..k] == entries;
    }
  }

  /** The port map fails exactly when some entry fails. */
  lemma PortMappingsFail(entries: seq<PortEntry>)
    ensures PortMappings(entries).Err? <==> exists i :: 0 <= i < |entries| && EntryMapping(entries[i]).Err?
  {
    MappingsByFail(EntryMapping, entries);
  }

  lemma {:induction false} MappingsByFail(read: EntryReader, entries: seq<PortEntry>)
    ensures MappingsBy(read, entries).Err? <==> exists i :: 0 <= i < |entries| && read(entries[i]).Err?
    decreases |entries|
  {
    if entries != [] {
      var init := entries[..|entries| - 1];
      MappingsByFail(read, init);
      assert forall i :: 0 <= i < |init| ==> init[i] == entries[i];
      if MappingsBy(read, init).Ok? && read(entries[|entries| - 1]).Err? {
        assert MappingsBy(read, entries).Err?;
      }
    }
  }

  /** Every host port in the map is non-zero and comes from the last entry for its container port. */
  lemma PortMappingsFromLast(entries: seq<PortEntry>)
    ensures PortMappings(entries).Ok? ==> var m := PortMappings(entries).value;
      forall k :: k in m ==> m[k] != 0 && LastMapping(entries, k, m[k])
  {
    MappingsByFromLast(EntryMapping, entries);
    assert PortMappings(entries) == MappingsBy(EntryMapping, entries);
    if PortMappings(entries).Ok? {
      var m := PortMappings(entries).value;
      forall k | k in m
        ensures m[k] != 0 && LastMapping(entries, k, m[k])
      {
        assert LastBy(EntryMapping, entries, k, m[k]);
        var i :| 0 <= i < |entries| && EntryMapping(entries[i]) == Ok(Some((k, m[k])));
      }
    }
  }

  lemma {:induction false} MappingsByFromLast(read: EntryReader, entries: seq<PortEntry>)
    ensures MappingsBy(read, entries).Ok? ==>
      forall k :: k in MappingsBy(read, entries).value ==> LastBy(read, entries, k, MappingsBy(read, entries).value[k])
    decreases |entries|
  {
    if entries != [] && MappingsBy(read, entries).Ok? {
      var init := entries[..|entries| - 1];
      var e := entries[|entries| - 1];
      MappingsByFromLast(read, init);
      assert init + [e] == entries;
      var m := MappingsBy(read, init).value;
      var m2 := MappingsBy(read, entries).value;
      forall k | k in m2
        ensures LastBy(read, entries, k, m2[k])
      {
        if read(e) == Ok(Some((k, m2[k]))) {
          assert entries[|entries| - 1] == e;
        } else {
          assert MappingsBy(read, init).Ok?;
          assert k in m && m2[k] == m[k];
          assert LastBy(read, init, k, m[k]);
          LastByExtend(read, init, e, k, m[k]);
        }
      }
    }
  }

  /** Every entry with a non-zero host port has its container port in the map. */
  lemma PortMappingsCover(entries: seq<PortEntry>)
    ensures PortMappings(entries).Ok? ==> var m := PortMappings(entries).value;
      forall i, k, h :: 0 <= i < |entries| && EntryMapping(entries[i]) == Ok(Some((k, h))) ==> k in m
  {
    MappingsByCover(EntryMapping, entries);
  }

  lemma {:induction false} MappingsByCover(read: EntryReader, entries: seq<PortEntry>)
    ensures MappingsBy(read, entries).Ok? ==> var m := MappingsBy(read, entries).value;
      forall i, k, h :: 0 <= i < |entries| && read(entries[i]) == Ok(Some((k, h))) ==> k in m
    decreases |entries|
  {
    if entries != [] && MappingsBy(read, entries).Ok? {
      var init := entries[..|entries| - 1];
      MappingsByCover(read, init);
      assert forall i :: 0 <= i < |init| ==> init[i] == entries[i];
    }
  }

  /** Entry `i` maps `k` to `h`, and no later entry maps `k`. */
  ghost predicate LastMapping(entries: seq<PortEntry>, k: int, h: int) {
    LastBy(EntryMapping, entries, k, h)
  }

  /** `LastMapping` for any way of reading an entry. */
  ghost predicate LastBy(read: EntryReader, entries: seq<PortEntry>, k: int, h: int) {
    exists i :: 0 <= i < |entries| && read(entries[i]) == Ok(Some((k, h)))
      && forall j, h2 :: i < j < |entries| ==> read(entries[j]) != Ok(Some((k, h2)))
  }

  lemma LastByExtend(read: EntryReader, init: seq<PortEntry>, e: PortEntry, k: int, h: int)
    requires LastBy(read, init, k, h)
    requires forall h2 :: read(e) != Ok(Some((k, h2)))
    ensures LastBy(read, init + [e], k, h)
  {
    var i :| 0 <= i < |init| && read(init[i]) == Ok(Some((k, h)))
      && forall j, h2 :: i < j < |init| ==> read(init[j]) != Ok(Some((k, h2)));
    var all := init + [e];
    assert all[i] == init[i];
    assert forall j :: i < j < |init| ==> all[j] == init[j];
    assert all[|init|] == e;
  }

  /** The unit of `docker inspect` data the adapter keeps, or the first port that does not parse. */
  function InfoFromInspect(data: InspectData): Result<ContainerInfo, Failure> {
    var state := StateFromStatus(Lower(data.status.GetOr("unknown")));
    var ip := FirstAddress(data.networkAddresses);
    match PortMappings(data.ports)
    case Err(f) => Err(f)
    case Ok(ports) =>
      Ok(ContainerInfo(Take(data.id.GetOr(""), 12), LStrip(data.name.GetOr(""), '/'), state,
        data.image.GetOr(""), ip, ports, data.labels))
  }

  /** The body of `get_container_info` after decoding, with its two loops. */
  method ReadInspect(data: InspectData) returns (r: Result<ContainerInfo, Failure>)
    ensures r == InfoFromInspect(data)
  {
    var state := StateFromStatus(Lower(data.status.GetOr("unknown")));
    var ip := FindAddress(data.networkAddresses);
    var ports := ParsePorts(data.ports);
    if ports.Err? {
      return Err(ports.error);
    }
    return Ok(ContainerInfo(Take(data.id.GetOr(""), 12), LStrip(data.name.GetOr(""), '/'), state,
      data.image.GetOr(""), ip, ports.value, data.labels));
  }

  /** `<cli> inspect --format {{json .}} <container>` with the default 30 s timeout. */
  function InspectCall(rt: DockerRuntime, container: string): Call {
    Call([rt.CliCommand(), "inspect", "--format", "{{json .}}", container], 30.0)
  }

  /** A failed inspect whose stderr says so means the container does not exist. */
  predicate SaysNotFound(stderr: string) {
    Contains(stderr, "No such") || Contains(Lower(stderr), "not found")
  }

  /** `get_container_info`. */
  function GetContainerInfo(rt: DockerRuntime, target: ContainerTarget, cli: Cli, decode: Decoder): Run<ContainerInfo> {
    var container := ContainerIdentifier(target);
    if container == "" then Run(Err(Raised(NotFoundError("(empty)", rt.CliCommand()))), [])
    else
      var call := InspectCall(rt, container);
      var res := RunCli(cli(call));
      if !res.Success() then
        if SaysNotFound(res.stderr) then Run(Err(Raised(NotFoundError(container, rt.CliCommand()))), [call])
        else Run(Err(Raised(GenericError("Failed to inspect container: " + res.stderr,
          map["container" := Text(container)]))), [call])
      else match decode(res.stdout)
        case None => Run(Err(Raised(GenericError("Failed to parse container info: " + Take(res.stdout, 200),
          map["container" := Text(container)]))), [call])
        case Some(data) => Run(InfoFromInspect(data), [call])
  }

  /**
   * A target without name or ID is rejected before any tool runs; otherwise exactly one inspect
   * runs, a failed one is a not-found error exactly when its stderr says so, and a successful
   * one yields the container with a 12-character ID prefix and a name without leading `/`.
   */
  lemma GetContainerInfoOutcome(rt: DockerRuntime, target: ContainerTarget, cli: Cli, decode: Decoder)
    ensures var r := GetContainerInfo(rt, target, cli, decode);
      var container := ContainerIdentifier(target);
      var res := RunCli(cli(InspectCall(rt, container)));
      && (container == "" ==> r == Run(Err(Raised(NotFoundError("(empty)", rt.CliCommand()))), []))
      && (container != "" ==> r.calls == [InspectCall(rt, container)])
      && (container != "" && !res.Success() ==>
            (&& r.result.Err?
             && (r.result.error == Raised(NotFoundError(container, rt.CliCommand())) <==> SaysNotFound(res.stderr))))
      && (r.result.Ok? ==>
            (&& res.Success() && decode(res.stdout).Some?
             && |r.result.value.id| <= 12 && r.result.value.id <= decode(res.stdout).value.id.GetOr("")
             && (r.result.value.name == [] || r.result.value.name[0] != '/')))
  {
    var container := ContainerIdentifier(target);
    if container != "" {
      var res := RunCli(cli(InspectCall(rt, container)));
      if !res.Success() && !SaysNotFound(res.stderr) {
        assert GetContainerInfo(rt, target, cli, decode).result.error.error.kind == Generic;
      }
    }
  }

  // ---------------------------------------------------------------------------
  // `docker exec`
  // ---------------------------------------------------------------------------

  /** `-e k=v` for every variable, in order. */
  function EnvFlags(env: seq<(string, string)>): (flags: seq<string>)
    ensures |flags| == 2 * |env|
    decreases |env|
  {
    if env == [] then []
    else EnvFlags(env[..|env| - 1]) + ["-e", env[|env| - 1].0 + "=" + env[|env| - 1].1]
  }

  /** Each variable becomes the pair `-e`, `key=value`, in order. */
  lemma {:induction false} EnvFlagsPairs(env: seq<(string, string)>)
    ensures forall i :: 0 <= i < |env| ==>
      EnvFlags(env)[2 * i] == "-e" && EnvFlags(env)[2 * i + 1] == env[i].0 + "=" + env[i].1
    decreases |env|
  {
    if env != [] {
      var init := env[..|env| - 1];
      EnvFlagsPairs(init);
      assert forall i :: 0 <= i < |init| ==> init[i] == env[i];
    }
  }

  /** The options of `exec`: `exec [-d] [-e k=v]... [-w dir] [-u user]`. */
  function ExecOptions(detached: bool, env: seq<(string, string)>, workdir: Option<string>, user: Option<string>): seq<string>
  {
    ["exec"] + (if detached then ["-d"] else []) + EnvFlags(env)
      + (if Truthy(workdir) then ["-w", workdir.value] else [])
      + (if Truthy(user) then ["-u", user.value] else [])
  }

  /** The arguments of `exec` after the tool: the options, the container, then the command. */
  function ExecArgv(detached: bool, env: seq<(string, string)>, workdir: Option<string>, user: Option<string>,
                    container: string, command: seq<string>): seq<string>
  {
    ExecOptions(detached, env, workdir, user) + [container] + command
  }

  /** The argument list, grown the way `exec_command` and `launch_with_debugpy` grow it. */
  method BuildExecArgs(detached: bool, env: seq<(string, string)>, workdir: Option<string>, user: Option<string>,
                       container: string, command: seq<string>) returns (args: seq<string>)
    ensures args == ExecArgv(detached, env, workdir, user, container, command)
  {
    args := ["exec"];
    if detached {
      args := args + ["-d"];
    }
    var prefix := args;
    var i := 0;
    while i < |env|
      invariant 0 <= i <= |env|
      invariant args == prefix + EnvFlags(env[..i])
    {
      var (key, value) := env[i];
      args := args + ["-e", key + "=" + value];
      assert env[..i + 1][..i] == env[..i];
      i := i + 1;
    }
    assert env[..i] == env;
    assert prefix == ["exec"] + (if detached then ["-d"] else []);
    ghost var withEnv := args;
    if Truthy(workdir) {
      args := args + ["-w", workdir.value];
    }
    ghost var withDir := args;
    assert withDir == withEnv + (if Truthy(workdir) then ["-w", workdir.value] else []);
    if Truthy(user) {
      args := args + ["-u", user.value];
    }
    assert args == withDir + (if Truthy(user) then ["-u", user.value] else []);
    assert args == ExecOptions(detached, env, workdir, user);
    args := args + [container];
    args := args + command;
  }

  /**
   * The options start with `exec` (and `-d` when detached), follow with the environment pairs,
   * then `-w dir`, then `-u user`, each only when given.
   */
  lemma ExecOptionsShape(detached: bool, env: seq<(string, string)>, workdir: Option<string>, user: Option<string>)
    ensures var opts := ExecOptions(detached, env, workdir, user);
      var flags := if detached then 2 else 1;
      var w := if Truthy(workdir) then 2 else 0;
      && |opts| == flags + 2 * |env| + w + (if Truthy(user) then 2 else 0)
      && opts[0] == "exec" && (detached ==> opts[1] == "-d")
      && opts[flags..flags + 2 * |env|] == EnvFlags(env)
      && (Truthy(workdir) ==> opts[flags + 2 * |env|] == "-w" && opts[flags + 2 * |env| + 1] == workdir.value)
      && (Truthy(user) ==> opts[flags + 2 * |env| + w] == "-u" && opts[flags + 2 * |env| + w + 1] == user.value)
  {
    var head := ["exec"] + (if detached then ["-d"] else []);
    var withEnv := head + EnvFlags(env);
    var withDir := withEnv + (if Truthy(workdir) then ["-w", workdir.value] else []);
    assert withEnv[|head|..] == EnvFlags(env);
    assert withDir[..|withEnv|] == withEnv;
  }

  /**
   * The container comes right after the options and right before the command, which ends the
   * list untouched, so nothing of the command can be taken for an option.
   */
  lemma ExecArgvShape(detached: bool, env: seq<(string, string)>, workdir: Option<string>, user: Option<string>,
                      container: string, command: seq<string>)
    ensures var opts := ExecOptions(detached, env, workdir, user);
      var args := ExecArgv(detached, env, workdir, user, container, command);
      && |args| == |opts| + 1 + |command|
      && args[..|opts|] == opts
      && args[|opts|] == container
      && args[|opts| + 1..] == command
  {
  }

  /** `exec_command`: look the container up, insist that it runs, then run the command in it. */
  function ExecCommand(rt: DockerRuntime, target: ContainerTarget, command: seq<string>, env: seq<(string, string)>,
                       workdir: Option<string>, timeout: real, user: Option<string>, cli: Cli, decode: Decoder): Run<ExecResult>
  {
    var container := ContainerIdentifier(target);
    if container == "" then Run(Err(Raised(NotFoundError("(empty)", rt.CliCommand()))), [])
    else
      var info := GetContainerInfo(rt, target, cli, decode);
      match info.result
      case Err(f) => Run(Err(f), info.calls)
      case Ok(i) =>
        if !i.IsRunning() then Run(Err(Raised(NotRunningError(container, i.state.Value()))), info.calls)
        else
          var call := Call([rt.CliCommand()] + ExecArgv(false, env, workdir, user, container, command), timeout);
          Run(Ok(RunCli(cli(call))), info.calls + [call])
  }

  /**
   * The command runs only in a container that inspect found running, as the very last
   * invocation after that inspect; a container in any other state is reported with its state.
   */
  lemma ExecCommandGuarded(rt: DockerRuntime, target: ContainerTarget, command: seq<string>, env: seq<(string, string)>,
                           workdir: Option<string>, timeout: real, user: Option<string>, cli: Cli, decode: Decoder)
    ensures var r := ExecCommand(rt, target, command, env, workdir, timeout, user, cli, decode);
      var container := ContainerIdentifier(target);
      var info := GetContainerInfo(rt, target, cli, decode);
      && (r.result.Ok? <==> info.result.Ok? && info.result.value.IsRunning())
      && (r.result.Ok? ==>
            r.calls == [InspectCall(rt, container),
                        Call([rt.CliCommand()] + ExecArgv(false, env, workdir, user, container, command), timeout)])
      && (info.result.Ok? && !info.result.value.IsRunning() ==>
            r == Run(Err(Raised(NotRunningError(container, info.result.value.state.Value()))), [InspectCall(rt, container)]))
  {
    GetContainerInfoOutcome(rt, target, cli, decode);
  }

  /** `exec_command` with no environment, working directory or user, as the helpers below call it. */
  function DockerExec(rt: DockerRuntime, target: ContainerTarget, cli: Cli, decode: Decoder): Exec {
    (command: seq<string>, timeout: real) => ExecCommand(rt, target, command, [], None, timeout, None, cli, decode)
  }

  // ---------------------------------------------------------------------------
  // Processes and debugpy
  // ---------------------------------------------------------------------------

  /** The listing used when the container has no `ps`: PID and command line from `/proc`. */
  const ProcListing: seq<string> := ["sh", "-c",
    "for pid in /proc/[0-9]*; do echo \"$(cat $pid/stat 2>/dev/null | cut -d\" \" -f1,2) $(cat $pid/cmdline 2>/dev/null | tr \"\\0\" \" \")\"; done"]

  function FindPythonProcesses(rt: DockerRuntime, target: ContainerTarget, cli: Cli, decode: Decoder): Run<seq<ProcessInfo>> {
    FindProcesses(DockerExec(rt, target, cli, decode), ProcListing)
  }

  function CheckDebugpyInstalled(rt: DockerRuntime, target: ContainerTarget, cli: Cli, decode: Decoder): Run<bool> {
    CheckInstalled(DockerExec(rt, target, cli, decode))
  }

  function InstallDebugpy(rt: DockerRuntime, target: ContainerTarget, cli: Cli, decode: Decoder): Run<()> {
    Install(DockerExec(rt, target, cli, decode), DockerInstallers)
  }

  /** The remediation step that restarts the container with the capability, using `tool`. */
  function RestartLine(tool: string): string {
    "1. Restart container with: " + tool + " run --cap-add=SYS_PTRACE ..."
  }

  const PtraceHead: seq<string> := [
    "Container lacks SYS_PTRACE capability required for debugger injection.",
    "",
    "Solutions:"]

  const PtraceTail: seq<string> := [
    "2. Use debug_container_launch to start a new debuggable process",
    "3. Pre-install debugpy and call debugpy.listen() in your code",
    "",
    "For docker-compose, add to your service:",
    "  cap_add:",
    "    - SYS_PTRACE"]

  /** The remediation steps of a refused injection; the restart command names the adapter's tool. */
  function PtraceInstructions(rt: DockerRuntime): (steps: seq<string>)
    ensures |steps| == 10
    ensures steps[3] == RestartLine(rt.CliCommand())
  {
    PtraceHead + [RestartLine(rt.CliCommand())] + PtraceTail
  }

  function InjectDebugpy(rt: DockerRuntime, target: ContainerTarget, pid: int, port: int, cli: Cli, decode: Decoder): Run<()> {
    Inject(DockerExec(rt, target, cli, decode), DockerInstallers, pid, port, PtraceInstructions(rt))
  }

  /**
   * `install_debugpy` tries `pip`, `pip3` and `python -m pip` in that order and stops at the
   * first that succeeds; the remediation steps of a refused injection name the adapter's tool.
   */
  lemma DockerInstallOrder(rt: DockerRuntime, target: ContainerTarget, cli: Cli, decode: Decoder)
    ensures var exec := DockerExec(rt, target, cli, decode);
      && (Succeeded(InstallRun(exec, ["pip"])) ==>
            InstallDebugpy(rt, target, cli, decode) == Run(Ok(()), InstallRun(exec, ["pip"]).calls))
      && (Failed(InstallRun(exec, ["pip"])) && Succeeded(InstallRun(exec, ["pip3"])) ==>
            InstallDebugpy(rt, target, cli, decode) == Run(Ok(()), InstallRun(exec, ["pip"]).calls + InstallRun(exec, ["pip3"]).calls))
      && (Failed(InstallRun(exec, ["pip"])) && Failed(InstallRun(exec, ["pip3"])) ==>
            InstallDebugpy(rt, target, cli, decode).calls
              == InstallRun(exec, ["pip"]).calls + InstallRun(exec, ["pip3"]).calls + InstallRun(exec, ["python", "-m", "pip"]).calls)
    ensures Contains(PtraceInstructions(rt)[3], rt.CliCommand() + " run --cap-add=SYS_PTRACE ...")
  {
    InstallChainOfThree(DockerExec(rt, target, cli, decode), ["pip"], ["pip3"], ["python", "-m", "pip"]);
    PtraceNamesTool(rt);
  }

  /** The restart step quotes `<tool> run --cap-add=SYS_PTRACE ...`. */
  lemma PtraceNamesTool(rt: DockerRuntime)
    ensures Contains(PtraceInstructions(rt)[3], rt.CliCommand() + " run --cap-add=SYS_PTRACE ...")
  {
    var cmd := rt.CliCommand() + " run --cap-add=SYS_PTRACE ...";
    var line := "1. Restart container with: " + cmd;
    ContainsMiddle("1. Restart container with: ", cmd, "");
    assert line + "" == line;
    assert RestartLine(rt.CliCommand()) == line;
  }

  /** The detached `exec -d` that starts debugpy; no user is passed. */
  function LaunchCall(rt: DockerRuntime, target: ContainerTarget, command: seq<string>, port: int,
                      waitForClient: bool, env: seq<(string, string)>, workdir: Option<string>): Call
  {
    Call([rt.CliCommand()] + ExecArgv(true, env, workdir, None, ContainerIdentifier(target),
      DebugpyCommand(port, waitForClient, command)), 10.0)
  }

  /** The launch call is detached and ends with the container and then the debugpy command. */
  lemma LaunchCallShape(rt: DockerRuntime, target: ContainerTarget, command: seq<string>, port: int,
                        waitForClient: bool, env: seq<(string, string)>, workdir: Option<string>)
    ensures var call := LaunchCall(rt, target, command, port, waitForClient, env, workdir);
      var debugpyCommand := DebugpyCommand(port, waitForClient, command);
      && call.timeout == 10.0
      && |call.argv| >= 4 + |debugpyCommand|
      && call.argv[..3] == [rt.CliCommand(), "exec", "-d"]
      && call.argv[|call.argv| - |debugpyCommand| - 1] == ContainerIdentifier(target)
      && call.argv[|call.argv| - |debugpyCommand|..] == debugpyCommand
  {
    var debugpyCommand := DebugpyCommand(port, waitForClient, command);
    var container := ContainerIdentifier(target);
    var args := ExecArgv(true, env, workdir, None, container, debugpyCommand);
    var argv := [rt.CliCommand()] + args;
    ExecOptionsShape(true, env, workdir, None);
    ExecArgvShape(true, env, workdir, None, container, debugpyCommand);
    assert argv[1..] == args;
    assert argv[..3] == [rt.CliCommand(), args[0], args[1]];
    assert argv[|argv| - |debugpyCommand|..] == args[|args| - |debugpyCommand|..];
  }

  /**
   * `launch_with_debugpy`: make sure debugpy is installed, then start it detached with
   * `exec -d`; unlike `exec_command` it neither looks the container up nor passes a user.
   */
  function LaunchWithDebugpy(rt: DockerRuntime, target: ContainerTarget, command: seq<string>, port: int,
                             waitForClient: bool, env: seq<(string, string)>, workdir: Option<string>,
                             cli: Cli, decode: Decoder): Run<()>
  {
    var ready := EnsureInstalled(DockerExec(rt, target, cli, decode), DockerInstallers);
    if ready.result.Err? then ready
    else
      var call := LaunchCall(rt, target, command, port, waitForClient, env, workdir);
      var res := RunCli(cli(call));
      if res.Success() then Run(Ok(()), ready.calls + [call])
      else Run(Err(Raised(ExecError(Join(" ", DebugpyCommand(port, waitForClient, command)), res.exitCode, res.stderr))),
        ready.calls + [call])
  }

  /**
   * debugpy is launched only once it is installed, as the last invocation; the launch succeeds
   * exactly when that call does, and a failed launch names the space-joined debugpy command.
   */
  lemma LaunchDetached(rt: DockerRuntime, target: ContainerTarget, command: seq<string>, port: int,
                       waitForClient: bool, env: seq<(string, string)>, workdir: Option<string>, cli: Cli, decode: Decoder)
    ensures var r := LaunchWithDebugpy(rt, target, command, port, waitForClient, env, workdir, cli, decode);
      var ready := EnsureInstalled(DockerExec(rt, target, cli, decode), DockerInstallers);
      var call := LaunchCall(rt, target, command, port, waitForClient, env, workdir);
      && (ready.result.Err? ==> r == ready)
      && (ready.result.Ok? ==>
            (&& r.calls == ready.calls + [call]
             && (r.result.Ok? <==> RunCli(cli(call)).Success())
             && (r.result.Err? ==> r.result.error == Raised(ExecError(Join(" ", DebugpyCommand(port, waitForClient, command)),
                   RunCli(cli(call)).exitCode, RunCli(cli(call)).stderr)))))
  {
  }

  /** `get_debugpy_endpoint`: the default decision on the inspected container. */
  function GetDebugpyEndpoint(rt: DockerRuntime, target: ContainerTarget, port: int, cli: Cli, decode: Decoder): Run<Endpoint> {
    var info := GetContainerInfo(rt, target, cli, decode);
    match info.result
    case Err(f) => Run(Err(f), info.calls)
    case Ok(i) => Run(EndpointFor(target.Identifier(), i, port), info.calls)
  }

  /**
   * The endpoint needs nothing but the inspect: a published port is reached on the loopback
   * address, else the container's own address, and anything raised by inspect propagates.
   */
  lemma EndpointAfterInspect(rt: DockerRuntime, target: ContainerTarget, port: int, cli: Cli, decode: Decoder)
    ensures var r := GetDebugpyEndpoint(rt, target, port, cli, decode);
      var info := GetContainerInfo(rt, target, cli, decode);
      && r.calls == info.calls
      && (info.result.Err? ==> r.result == Err(info.result.error))
      && (info.result.Ok? && port in info.result.value.ports ==>
            r.result == Ok(Endpoint(Loopback, info.result.value.ports[port])))
      && (info.result.Ok? ==>
            (r.result.Err? <==> port !in info.result.value.ports && !Truthy(info.result.value.ipAddress)))
  {
    var info := GetContainerInfo(rt, target, cli, decode);
    if info.result.Ok? {
      EndpointDecision(target.Identifier(), info.result.value, port);
    }
  }

  // ---------------------------------------------------------------------------
  // The tool the adapter runs
  // ---------------------------------------------------------------------------

  /** `exec_command` invokes what the lookup did, and then possibly the `exec` itself. */
  lemma ExecCommandCalls(rt: DockerRuntime, target: ContainerTarget, command: seq<string>, env: seq<(string, string)>,
                         workdir: Option<string>, timeout: real, user: Option<string>, cli: Cli, decode: Decoder)
    ensures var calls := ExecCommand(rt, target, command, env, workdir, timeout, user, cli, decode).calls;
      var info := GetContainerInfo(rt, target, cli, decode);
      || calls == info.calls
      || calls == info.calls + [Call([rt.CliCommand()] + ExecArgv(false, env, workdir, user, ContainerIdentifier(target), command), timeout)]
  {
  }

  /** Looking a container up and running a command in it invoke only the adapter's tool. */
  lemma LookupAndExecUseTool(rt: DockerRuntime, target: ContainerTarget, cli: Cli, decode: Decoder)
    ensures AllTo(GetContainerInfo(rt, target, cli, decode).calls, rt.CliCommand())
    ensures ExecTo(DockerExec(rt, target, cli, decode), rt.CliCommand())
  {
    LookupUsesTool(rt, target, cli, decode);
    forall command, timeout
      ensures AllTo(DockerExec(rt, target, cli, decode)(command, timeout).calls, rt.CliCommand())
    {
      ExecCommandUsesTool(rt, target, command, [], None, timeout, None, cli, decode);
    }
  }

  lemma LookupUsesTool(rt: DockerRuntime, target: ContainerTarget, cli: Cli, decode: Decoder)
    ensures AllTo(GetContainerInfo(rt, target, cli, decode).calls, rt.CliCommand())
  {
    GetContainerInfoOutcome(rt, target, cli, decode);
  }

  lemma ExecCommandUsesTool(rt: DockerRuntime, target: ContainerTarget, command: seq<string>, env: seq<(string, string)>,
                            workdir: Option<string>, timeout: real, user: Option<string>, cli: Cli, decode: Decoder)
    ensures AllTo(ExecCommand(rt, target, command, env, workdir, timeout, user, cli, decode).calls, rt.CliCommand())
  {
    LookupUsesTool(rt, target, cli, decode);
    ExecCommandCalls(rt, target, command, env, workdir, timeout, user, cli, decode);
    var call := Call([rt.CliCommand()] + ExecArgv(false, env, workdir, user, ContainerIdentifier(target), command), timeout);
    AllToConcat(GetContainerInfo(rt, target, cli, decode).calls, [call], rt.CliCommand());
  }

  lemma DebugpyOperationsUseTool(rt: DockerRuntime, target: ContainerTarget, cli: Cli, decode: Decoder, pid: int, port: int)
    ensures AllTo(FindPythonProcesses(rt, target, cli, decode).calls, rt.CliCommand())
    ensures AllTo(CheckDebugpyInstalled(rt, target, cli, decode).calls, rt.CliCommand())
    ensures AllTo(InstallDebugpy(rt, target, cli, decode).calls, rt.CliCommand())
    ensures AllTo(InjectDebugpy(rt, target, pid, port, cli, decode).calls, rt.CliCommand())
    ensures AllTo(EnsureInstalled(DockerExec(rt, target, cli, decode), DockerInstallers).calls, rt.CliCommand())
  {
    LookupAndExecUseTool(rt, target, cli, decode);
    OperationsUseTool(DockerExec(rt, target, cli, decode), rt.CliCommand(), ProcListing, DockerInstallers, pid, port,
      PtraceInstructions(rt));
  }

  lemma ReadyUsesTool(rt: DockerRuntime, target: ContainerTarget, cli: Cli, decode: Decoder)
    ensures AllTo(EnsureInstalled(DockerExec(rt, target, cli, decode), DockerInstallers).calls, rt.CliCommand())
  {
    LookupAndExecUseTool(rt, target, cli, decode);
    OperationsUseTool(DockerExec(rt, target, cli, decode), rt.CliCommand(), ProcListing, DockerInstallers, 0, 0, []);
  }

  lemma LaunchUsesTool(rt: DockerRuntime, target: ContainerTarget, command: seq<string>, port: int,
                       waitForClient: bool, env: seq<(string, string)>, workdir: Option<string>, cli: Cli, decode: Decoder)
    ensures AllTo(LaunchWithDebugpy(rt, target, command, port, waitForClient, env, workdir, cli, decode).calls, rt.CliCommand())
  {
    ReadyUsesTool(rt, target, cli, decode);
    LaunchDetached(rt, target, command, port, waitForClient, env, workdir, cli, decode);
    var ready := EnsureInstalled(DockerExec(rt, target, cli, decode), DockerInstallers);
    AllToConcat(ready.calls, [LaunchCall(rt, target, command, port, waitForClient, env, workdir)], rt.CliCommand());
  }

  /**
   * Every invocation of every operation of the adapter runs its tool (`docker`, or the
   * override): the lookup, `exec`, the process listing, the debugpy check, install and
   * injection, the detached launch, and the endpoint lookup.
   */
  lemma EveryCallUsesTool(rt: DockerRuntime, target: ContainerTarget, cli: Cli, decode: Decoder, pid: int, port: int,
                          command: seq<string>, waitForClient: bool, env: seq<(string, string)>, workdir: Option<string>,
                          user: Option<string>, timeout: real)
    ensures AllTo(GetContainerInfo(rt, target, cli, decode).calls, rt.CliCommand())
    ensures AllTo(ExecCommand(rt, target, command, env, workdir, timeout, user, cli, decode).calls, rt.CliCommand())
    ensures AllTo(FindPythonProcesses(rt, target, cli, decode).calls, rt.CliCommand())
    ensures AllTo(CheckDebugpyInstalled(rt, target, cli, decode).calls, rt.CliCommand())
    ensures AllTo(InstallDebugpy(rt, target, cli, decode).calls, rt.CliCommand())
    ensures AllTo(InjectDebugpy(rt, target, pid, port, cli, decode).calls, rt.CliCommand())
    ensures AllTo(LaunchWithDebugpy(rt, target, command, port, waitForClient, env, workdir, cli, decode).calls, rt.CliCommand())
    ensures AllTo(GetDebugpyEndpoint(rt, target, port, cli, decode).calls, rt.CliCommand())
  {
    LookupAndExecUseTool(rt, target, cli, decode);
    ExecCommandUsesTool(rt, target, command, env, workdir, timeout, user, cli, decode);
    DebugpyOperationsUseTool(rt, target, cli, decode, pid, port);
    LaunchUsesTool(rt, target, command, port, waitForClient, env, workdir, cli, decode);
  }
}
