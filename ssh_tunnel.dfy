/**
 * SSH tunnels to containers on remote hosts (containers/ssh_tunnel.py): an `ssh -N -L` process
 * forwards a local port to a host and port as seen from the SSH server, and a manager keeps
 * the open tunnels by `ssh_host:remote_host:remote_port`.
 */
module SshTunnels {
  import opened Wrappers
  import opened Strings
  import opened Processes
  import opened ContainerTargets
  import opened ContainerErrors
  import opened AdapterBase

  /** `SSHTunnel`: one forward and the `ssh` process that holds it open. */
  class SSHTunnel {
    const localPort: int
    const remoteHost: string
    const remotePort: int
    const sshHost: string
    const sshUser: string
    const process: Process?
    var closed: bool

    constructor (localPort: int, remoteHost: string, remotePort: int, sshHost: string, sshUser: string, process: Process?)
      ensures this.localPort == localPort && this.remoteHost == remoteHost && this.remotePort == remotePort
      ensures this.sshHost == sshHost && this.sshUser == sshUser && this.process == process
      ensures !closed
    {
      this.localPort := localPort;
      this.remoteHost := remoteHost;
      this.remotePort := remotePort;
      this.sshHost := sshHost;
      this.sshUser := sshUser;
      this.process := process;
      closed := false;
    }

    /** Not closed, has a process, and the process is still running. */
    predicate IsActive()
      reads this, process
    {
      !closed && process != null && process.Running()
    }

    /** `local_endpoint`: `127.0.0.1:<port>`. */
    function LocalEndpoint(): string {
      Loopback + ":" + IntToString(localPort)
    }

    /**
     * `wait_ready`: try to connect until an attempt succeeds or the window closes; each
     * element of `attempts` is whether that attempt connected.
     */
    method WaitReady(attempts: seq<bool>) returns (ready: bool)
      ensures ready <==> true in attempts
    {
      var i := 0;
      while i < |attempts|
        invariant 0 <= i <= |attempts|
        invariant true !in attempts[..i]
      {
        if attempts[i] {
          return true;
        }
        assert attempts[..i + 1] == attempts[..i] + [attempts[i]];
        i := i + 1;
      }
      assert attempts[..i] == attempts;
      return false;
    }

    /**
     * `close`: marks the tunnel closed, then stops its process (SIGTERM, SIGKILL after five
     * seconds); a second call changes nothing.
     */
    method Close()
      modifies this, process
      ensures closed && !IsActive()
      ensures old(closed) ==> process == null || unchanged(process)
      ensures !old(closed) && process != null ==>
        process.StoppedFrom(old(process.returnCode), old(process.signals))
    {
      if closed {
        return;
      }
      closed := true;
      if process != null {
        process.Stop();
      }
    }
  }

  /** The endpoint reads back as the loopback address and the local port. */
  lemma LocalEndpointParses(t: SSHTunnel)
    ensures SplitOn(t.LocalEndpoint(), ':') == [Loopback, IntToString(t.localPort)]
    ensures ParseInt(SplitOn(t.LocalEndpoint(), ':')[1]) == Some(t.localPort)
  {
    var digits := IntToString(t.localPort);
    assert ':' !in digits;
    assert ':' !in Loopback;
    SplitOnCons(Loopback, ':', digits);
    SplitOnFree(digits, ':');
    IntToStringRoundTrip(t.localPort);
  }

  /** `_tunnel_key`. */
  function TunnelKey(sshHost: string, remoteHost: string, remotePort: int): string {
    sshHost + ":" + remoteHost + ":" + IntToString(remotePort)
  }

  /**
   * Two tunnels share a key only when they go through the same SSH host to the same remote
   * host and port, as long as the SSH host has no `:`; the remote host may have any.
   */
  lemma TunnelKeyInjective(h1: string, rh1: string, rp1: int, h2: string, rh2: string, rp2: int)
    requires ':' !in h1 && ':' !in h2
    requires TunnelKey(h1, rh1, rp1) == TunnelKey(h2, rh2, rp2)
    ensures h1 == h2 && rh1 == rh2 && rp1 == rp2
  {
    KeyPartsInjective(h1, rh1, rp1, h2, rh2, rp2, ':');
  }

  /** The `-L` argument: `<local>:<remote host>:<remote port>`. */
  function ForwardSpec(localPort: int, remoteHost: string, remotePort: int): string {
    IntToString(localPort) + ":" + remoteHost + ":" + IntToString(remotePort)
  }

  /** The options every tunnel passes: no remote command, batch mode, keep-alives. */
  function SshOptions(ssh: string, forward: string, port: int): (opts: seq<string>)
    ensures |opts| == 16
  {
    [ssh, "-N", "-L", forward,
     "-o", "StrictHostKeyChecking=accept-new",
     "-o", "BatchMode=yes",
     "-o", "ConnectTimeout=10",
     "-o", "ServerAliveInterval=30",
     "-o", "ServerAliveCountMax=3",
     "-p", IntToString(port)]
  }

  /** The `-J` argument: `[jump_user@]jump_host`. */
  function JumpSpec(config: SSHConfig): string
    requires Truthy(config.jumpHost)
  {
    if Truthy(config.jumpUser) then config.jumpUser.value + "@" + config.jumpHost.value else config.jumpHost.value
  }

  /** The key and jump-host options, each only when configured; paths have `~` expanded. */
  function IdentityOptions(config: SSHConfig, expand: string -> string): seq<string> {
    (if Truthy(config.keyPath) then ["-i", expand(config.keyPath.value)] else [])
      + (if Truthy(config.jumpHost) then
           ["-J", JumpSpec(config)] + (if Truthy(config.jumpKeyPath) then ["-i", expand(config.jumpKeyPath.value)] else [])
         else [])
  }

  /** The `ssh` command line `create_tunnel` starts. */
  function SshCommand(ssh: string, config: SSHConfig, remoteHost: string, remotePort: int, localPort: int,
                      expand: string -> string): seq<string>
  {
    SshOptions(ssh, ForwardSpec(localPort, remoteHost, remotePort), config.port)
      + IdentityOptions(config, expand) + [config.user + "@" + config.host]
  }

  /**
   * The command forwards the local port, runs non-interactively on the configured port, ends
   * with `user@host`, passes `-i` right after the fixed options exactly when a key is
   * configured, and passes `-J` (after the key) exactly when a jump host is.
   */
  lemma SshCommandShape(ssh: string, config: SSHConfig, remoteHost: string, remotePort: int, localPort: int,
                        expand: string -> string)
    ensures var cmd := SshCommand(ssh, config, remoteHost, remotePort, localPort, expand);
      var k := if Truthy(config.keyPath) then 2 else 0;
      var j := if Truthy(config.jumpHost) then (if Truthy(config.jumpKeyPath) then 4 else 2) else 0;
      && |cmd| == 17 + k + j
      && cmd[0] == ssh && cmd[1] == "-N" && cmd[2] == "-L" && cmd[3] == ForwardSpec(localPort, remoteHost, remotePort)
      && cmd[7] == "BatchMode=yes"
      && cmd[14] == "-p" && cmd[15] == IntToString(config.port)
      && (Truthy(config.keyPath) ==> cmd[16] == "-i" && cmd[17] == expand(config.keyPath.value))
      && (Truthy(config.jumpHost) ==> cmd[16 + k] == "-J" && cmd[17 + k] == JumpSpec(config))
      && (Truthy(config.jumpHost) && Truthy(config.jumpKeyPath) ==>
            cmd[18 + k] == "-i" && cmd[19 + k] == expand(config.jumpKeyPath.value))
      && cmd[|cmd| - 1] == config.user + "@" + config.host
  {
    var opts := SshOptions(ssh, ForwardSpec(localPort, remoteHost, remotePort), config.port);
    var tail := IdentityOptions(config, expand) + [config.user + "@" + config.host];
    var cmd := SshCommand(ssh, config, remoteHost, remotePort, localPort, expand);
    assert cmd == opts + tail;
    SshOptionsShape(ssh, ForwardSpec(localPort, remoteHost, remotePort), config.port);
    IdentityOptionsShape(config, expand);
  }

  /** The fixed options: forwarding, batch mode, and the port last. */
  lemma SshOptionsShape(ssh: string, forward: string, port: int)
    ensures var opts := SshOptions(ssh, forward, port);
      && opts[0] == ssh && opts[1] == "-N" && opts[2] == "-L" && opts[3] == forward
      && opts[7] == "BatchMode=yes"
      && opts[14] == "-p" && opts[15] == IntToString(port)
  {
  }

  /** The key options come first, then the jump host with its own key. */
  lemma IdentityOptionsShape(config: SSHConfig, expand: string -> string)
    ensures var ids := IdentityOptions(config, expand);
      var k := if Truthy(config.keyPath) then 2 else 0;
      var j := if Truthy(config.jumpHost) then (if Truthy(config.jumpKeyPath) then 4 else 2) else 0;
      && |ids| == k + j
      && (Truthy(config.keyPath) ==> ids[0] == "-i" && ids[1] == expand(config.keyPath.value))
      && (Truthy(config.jumpHost) ==> ids[k] == "-J" && ids[k + 1] == JumpSpec(config))
      && (Truthy(config.jumpHost) && Truthy(config.jumpKeyPath) ==>
            ids[k + 2] == "-i" && ids[k + 3] == expand(config.jumpKeyPath.value))
  {
    var key: seq<string> := if Truthy(config.keyPath) then ["-i", expand(config.keyPath.value)] else [];
    var jump: seq<string> := if Truthy(config.jumpHost) then
        ["-J", JumpSpec(config)] + (if Truthy(config.jumpKeyPath) then ["-i", expand(config.jumpKeyPath.value)] else [])
      else [];
    assert IdentityOptions(config, expand) == key + jump;
  }

  /** The environment set on top of the parent's: no password prompt when neither a key nor a password is given. */
  function AskpassOverrides(config: SSHConfig): map<string, string> {
    if !Truthy(config.keyPath) && !Truthy(config.password) then
      map["SSH_ASKPASS" := "", "SSH_ASKPASS_REQUIRE" := "never"]
    else map[]
  }

  /** The prompt is switched off exactly when there is neither key nor password. */
  lemma AskpassOverridesCases(config: SSHConfig)
    ensures AskpassOverrides(config) != map[] <==> !Truthy(config.keyPath) && !Truthy(config.password)
    ensures AskpassOverrides(config) != map[] ==> AskpassOverrides(config)["SSH_ASKPASS_REQUIRE"] == "never"
  {
    if !Truthy(config.keyPath) && !Truthy(config.password) {
      assert "SSH_ASKPASS" in AskpassOverrides(config);
    }
  }

  const SshClientHint := "Install OpenSSH client (e.g., 'apt install openssh-client')"
  /** How long `create_tunnel` waits for the tunnel, in seconds. */
  const TunnelReadyTimeout: real := 15.0
  /** A failed tunnel's message quotes at most 500 characters of its stderr. */
  const TunnelStderrLimit := 500

  /** `SSHTunnelError` when the `ssh` process exited before the tunnel came up. */
  function StartFailure(exitCode: int, stderr: string, cmd: seq<string>): Failure {
    TunnelFailed("SSH tunnel failed to start: " + Take(stderr, TunnelStderrLimit),
      map["exit_code" := Number(exitCode), "stderr" := Text(Take(stderr, TunnelStderrLimit)), "cmd" := Text(Join(" ", cmd))])
  }

  /** The tunnels the manager stores, by key. */
  class SSHTunnelManager {
    var tunnels: map<string, SSHTunnel>

    constructor ()
      ensures tunnels == map[]
    {
      tunnels := map[];
    }

    /** Every tunnel is stored under the key of its own SSH host, remote host and port. */
    predicate KeysMatch()
      reads this
    {
      forall k :: k in tunnels ==> k == TunnelKey(tunnels[k].sshHost, tunnels[k].remoteHost, tunnels[k].remotePort)
    }

    /** `active_count`: how many stored tunnels are active. */
    function ActiveCount(): (n: nat)
      reads this, set k | k in tunnels :: tunnels[k], set k | k in tunnels :: tunnels[k].process
      ensures n <= |tunnels|
      ensures tunnels == map[] ==> n == 0
      ensures n == 0 <==> forall k :: k in tunnels ==> !tunnels[k].IsActive()
      ensures n == |tunnels| <==> forall k :: k in tunnels ==> tunnels[k].IsActive()
    {
      var active := set k | k in tunnels && tunnels[k].IsActive();
      assert active <= tunnels.Keys;
      assert forall k :: k in tunnels ==> (k in active <==> tunnels[k].IsActive());
      assert |active| == 0 <==> active == {};
      SubsetCardinality(active, tunnels.Keys);
      assert |tunnels| == |tunnels.Keys|;
      assert (forall k :: k in tunnels ==> tunnels[k].IsActive()) ==> active == tunnels.Keys;
      if |active| == |tunnels.Keys| then SameCardinalitySubset(active, tunnels.Keys); |active|
      else |active|
    }

    /** `get_tunnel`: the stored tunnel for the target while it is active, else none. */
    method GetTunnel(sshHost: string, remoteHost: string, remotePort: int) returns (t: SSHTunnel?)
      requires KeysMatch()
      ensures var key := TunnelKey(sshHost, remoteHost, remotePort);
        t == (if key in tunnels && tunnels[key].IsActive() then tunnels[key] else null)
      ensures t != null && ':' !in sshHost && ':' !in t.sshHost ==>
        t.sshHost == sshHost && t.remoteHost == remoteHost && t.remotePort == remotePort
    {
      var key := TunnelKey(sshHost, remoteHost, remotePort);
      if key in tunnels && tunnels[key].IsActive() {
        t := tunnels[key];
        if ':' !in sshHost && ':' !in t.sshHost {
          TunnelKeyInjective(sshHost, remoteHost, remotePort, t.sshHost, t.remoteHost, t.remotePort);
        }
      } else {
        t := null;
      }
    }

    /** `close_tunnel`: remove the target's tunnel, close it, and say whether there was one. */
    method CloseTunnel(sshHost: string, remoteHost: string, remotePort: int) returns (found: bool)
      requires KeysMatch()
      modifies this, set k | k in tunnels && k == TunnelKey(sshHost, remoteHost, remotePort) :: tunnels[k]
      modifies set k | k in tunnels && k == TunnelKey(sshHost, remoteHost, remotePort) :: tunnels[k].process
      ensures KeysMatch()
      ensures var key := TunnelKey(sshHost, remoteHost, remotePort);
        && found == (key in old(tunnels))
        && tunnels == old(tunnels) - {key}
        && (found ==> old(tunnels)[key].closed && !old(tunnels)[key].IsActive())
        && (found && !old(tunnels[key].closed) && old(tunnels)[key].process != null ==>
              old(tunnels)[key].process.returnCode.Some?)
    {
      var key := TunnelKey(sshHost, remoteHost, remotePort);
      if key in tunnels {
        var t := tunnels[key];
        tunnels := tunnels - {key};
        t.Close();
        return true;
      }
      return false;
    }

    /** `close_all`: close every tunnel, empty the store, and count the tunnels closed. */
    method CloseAll() returns (count: nat)
      modifies this, set k | k in tunnels :: tunnels[k], set k | k in tunnels :: tunnels[k].process
      ensures count == |old(tunnels)|
      ensures tunnels == map[] && ActiveCount() == 0
      ensures forall k :: k in old(tunnels) ==> old(tunnels)[k].closed && !old(tunnels)[k].IsActive()
      ensures forall k :: k in old(tunnels) && !old(tunnels[k].closed) && old(tunnels)[k].process != null ==>
        old(tunnels)[k].process.returnCode.Some?
    {
      count := 0;
      var pending := tunnels.Keys;
      var stored := tunnels;
      while pending != {}
        invariant pending <= stored.Keys && tunnels == stored
        invariant count + |pending| == |stored.Keys|
        invariant forall k :: k in stored.Keys - pending ==> stored[k].closed
        invariant forall k :: k in stored.Keys && stored[k].closed && !old(stored[k].closed) && stored[k].process != null ==>
          stored[k].process.returnCode.Some?
        decreases pending
      {
        var k :| k in pending;
        stored[k].Close();
        pending := pending - {k};
        count := count + 1;
      }
      tunnels := map[];
    }

    /**
     * `create_tunnel`. The oracles: `sshPath` is what looking `ssh` up on the path found,
     * `freePort` what binding port 0 returned, `expand` expands `~` in a path and `fileExists`
     * says whether a file exists, `spawnError` is the exception starting `ssh` raised if any.
     * What happens once `ssh` runs is `StartTunnel`'s.
     */
    method CreateTunnel(config: SSHConfig, remoteHost: string, remotePort: int, localPort: Option<int>,
                        sshPath: Option<string>, freePort: int, expand: string -> string, fileExists: string -> bool,
                        spawnError: Option<string>, world: TunnelWorld)
      returns (r: Result<SSHTunnel, Failure>, spawned: Process?)
      requires KeysMatch()
      modifies this
      ensures KeysMatch()
      ensures var key := TunnelKey(config.host, remoteHost, remotePort);
        var reused := key in old(tunnels) && old(tunnels[key].IsActive());
        var keyMissing := Truthy(config.keyPath) && !fileExists(expand(config.keyPath.value));
        && (!Truthy(sshPath) ==> r == Err(TunnelFailed("SSH client not found", map["hint" := Text(SshClientHint)])))
        && (Truthy(sshPath) && reused ==> r == Ok(old(tunnels[key])))
        && (Truthy(sshPath) && !reused && keyMissing ==>
              r == Err(TunnelFailed("SSH key file not found: " + expand(config.keyPath.value),
                map["key_path" := Text(expand(config.keyPath.value))])))
        && (Truthy(sshPath) && !reused && !keyMissing && spawnError.Some? ==>
              r == Err(TunnelFailed("Failed to create SSH tunnel: " + spawnError.value, map["error" := Text(spawnError.value)])))
        && (spawned != null <==> Truthy(sshPath) && !reused && !keyMissing && spawnError.None?)
        && (spawned == null ==> tunnels == old(tunnels))
      ensures spawned != null ==>
        var port := localPort.GetOr(freePort);
        && fresh(spawned)
        && spawned.argv == SshCommand(sshPath.value, config, remoteHost, remotePort, port, expand)
        && StartedAs(r, spawned, config, remoteHost, remotePort, port, world)
        && (r.Ok? ==> tunnels == old(tunnels)[TunnelKey(config.host, remoteHost, remotePort) := r.value])
        && (r.Err? ==> tunnels == old(tunnels))
    {
      if !Truthy(sshPath) {
        return Err(TunnelFailed("SSH client not found", map["hint" := Text(SshClientHint)])), null;
      }
      var ssh := sshPath.value;
      var key := TunnelKey(config.host, remoteHost, remotePort);
      if key in tunnels && tunnels[key].IsActive() {
        return Ok(tunnels[key]), null;
      }
      var port := if localPort.None? then freePort else localPort.value;
      if Truthy(config.keyPath) && !fileExists(expand(config.keyPath.value)) {
        var path := expand(config.keyPath.value);
        return Err(TunnelFailed("SSH key file not found: " + path, map["key_path" := Text(path)])), null;
      }
      var cmd := SshCommand(ssh, config, remoteHost, remotePort, port, expand);
      if spawnError.Some? {
        return Err(TunnelFailed("Failed to create SSH tunnel: " + spawnError.value, map["error" := Text(spawnError.value)])), null;
      }
      r, spawned := StartTunnel(cmd, config, remoteHost, remotePort, port, world);
      if r.Ok? {
        tunnels := tunnels[key := r.value];
      }
    }
  }

  /**
   * What the world does once `ssh` is started: the connection attempts while the tunnel is
   * awaited (whether each connected), the exit code and stderr of the process if it had
   * exited by the end of the wait, and how it answers SIGTERM.
   */
  datatype TunnelWorld = TunnelWorld(attempts: seq<bool>, exitedBy: Option<(int, string)>, onTerminate: Option<int>)

  /**
   * The outcome of starting the tunnel: ready as soon as an attempt connects (even if the
   * process has died since); otherwise a start failure with the exit code and (at most 500
   * characters of) stderr when the process exited, else a timeout that leaves the process
   * running and unsignalled.
   */
  ghost predicate StartedAs(r: Result<SSHTunnel, Failure>, process: Process, config: SSHConfig, remoteHost: string,
                            remotePort: int, port: int, world: TunnelWorld)
    reads process
  {
    && process.envOverrides == AskpassOverrides(config)
    && process.onTerminate == world.onTerminate && process.signals == []
    && (world.exitedBy.None? ==> process.Running())
    && (world.exitedBy.Some? ==> process.returnCode == Some(world.exitedBy.value.0))
    && (true in world.attempts ==>
          (&& r.Ok? && r.value.process == process && r.value.localPort == port
           && r.value.remoteHost == remoteHost && r.value.remotePort == remotePort
           && r.value.sshHost == config.host && r.value.sshUser == config.user))
    && (true !in world.attempts && world.exitedBy.Some? ==>
          r == Err(StartFailure(world.exitedBy.value.0, world.exitedBy.value.1, process.argv)))
    && (true !in world.attempts && world.exitedBy.None? ==>
          r == Err(TunnelFailed("SSH tunnel connection timeout",
            map["timeout" := Seconds(TunnelReadyTimeout), "local_port" := Number(port)])))
  }

  /** Start `ssh`, wait for the tunnel, and report what came of it. */
  method StartTunnel(cmd: seq<string>, config: SSHConfig, remoteHost: string, remotePort: int, port: int,
                     world: TunnelWorld)
    returns (r: Result<SSHTunnel, Failure>, process: Process)
    ensures fresh(process) && process.argv == cmd
    ensures r.Ok? ==> fresh(r.value) && !r.value.closed
    ensures StartedAs(r, process, config, remoteHost, remotePort, port, world)
  {
    process := new Process(cmd, AskpassOverrides(config), world.onTerminate);
    var tunnel := new SSHTunnel(port, remoteHost, remotePort, config.host, config.user, process);
    var ready := tunnel.WaitReady(world.attempts);
    if world.exitedBy.Some? {
      process.Exit(world.exitedBy.value.0, world.exitedBy.value.1);
    }
    if !ready {
      if process.returnCode.Some? {
        return Err(StartFailure(process.returnCode.value, process.stderr, cmd)), process;
      }
      return Err(TunnelFailed("SSH tunnel connection timeout",
        map["timeout" := Seconds(TunnelReadyTimeout), "local_port" := Number(port)])), process;
    }
    return Ok(tunnel), process;
  }

  /** A subset has no more elements than its superset. */
  lemma SameCardinalitySubset<T>(a: set<T>, b: set<T>)
    requires a <= b && |a| == |b|
    ensures a == b
  {
    assert b == a + (b - a);
    assert |b - a| == 0;
    assert forall x :: x in b ==> x in a;
  }

  lemma SubsetCardinality<T>(a: set<T>, b: set<T>)
    requires a <= b
    ensures |a| <= |b|
  {
    if a != {} {
      var x :| x in a;
      SubsetCardinality(a - {x}, b - {x});
    }
  }
}
