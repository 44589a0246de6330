/**
 * The value records that describe what to debug: the runtime kind, local/remote path
 * mappings, SSH settings and the container target with its human-readable identifier
 * (models/container.py).
 */
module ContainerTargets {
  import opened Wrappers
  import opened Strings

  // ---------------------------------------------------------------------------
  // Python values that appear in these records
  // ---------------------------------------------------------------------------

  /** Truthiness of an optional string: `None` and `""` are false. */
  predicate Truthy(o: Option<string>) {
    o.Some? && o.value != ""
  }

  /** `o or fallback` for an optional string. */
  function Or(o: Option<string>, fallback: string): (r: string)
    ensures Truthy(o) ==> r == o.value
    ensures !Truthy(o) ==> r == fallback
  {
    if Truthy(o) then o.value else fallback
  }

  /** How an f-string renders an optional string: `None` prints as `None`. */
  function Render(o: Option<string>): string {
    if o.Some? then o.value else "None"
  }

  // ---------------------------------------------------------------------------
  // Runtimes
  // ---------------------------------------------------------------------------

  datatype ContainerRuntime = Docker | Podman | Kubernetes {
    /** The enum's string value. */
    function Value(): string {
      match this
      case Docker => "docker"
      case Podman => "podman"
      case Kubernetes => "kubernetes"
    }
  }

  /** The enum members in declaration order. */
  const AllRuntimes: seq<ContainerRuntime> := [Docker, Podman, Kubernetes]

  /** `ContainerRuntime(s)`: the member whose value is exactly `s`, if any. */
  function RuntimeFromValue(s: string): (r: Option<ContainerRuntime>)
    ensures r.Some? ==> r.value.Value() == s
    ensures r.None? ==> forall rt: ContainerRuntime :: rt.Value() != s
  {
    if s == "docker" then Some(Docker)
    else if s == "podman" then Some(Podman)
    else if s == "kubernetes" then Some(Kubernetes)
    else None
  }

  /** Every member is found again from its value, and the list of members is complete. */
  lemma RuntimeValueRoundTrip(rt: ContainerRuntime)
    ensures RuntimeFromValue(rt.Value()) == Some(rt)
    ensures rt in AllRuntimes
  {
  }

  /** The three values are distinct, so a value names one member. */
  lemma RuntimeValuesDistinct(a: ContainerRuntime, b: ContainerRuntime)
    requires a.Value() == b.Value()
    ensures a == b
  {
    RuntimeValueRoundTrip(a);
    RuntimeValueRoundTrip(b);
  }

  // ---------------------------------------------------------------------------
  // Path mappings
  // ---------------------------------------------------------------------------

  /**
   * Moves `path` from under `fromRoot` to under `toRoot` when `path` starts with `fromRoot`
   * (a character prefix, as `str.startswith` tests), and leaves it alone otherwise.
   */
  function Rebase(path: string, fromRoot: string, toRoot: string): (r: string)
    ensures !(fromRoot <= path) ==> r == path
  {
    if fromRoot <= path then
      RStrip(toRoot, '/') + "/" + LStrip(path[|fromRoot|..], '/')
    else path
  }

  datatype PathMapping = PathMapping(localRoot: string, remoteRoot: string) {
    function ToRemote(localPath: string): (r: string)
      ensures !(localRoot <= localPath) ==> r == localPath
    {
      Rebase(localPath, localRoot, remoteRoot)
    }

    function ToLocal(remotePath: string): (r: string)
      ensures !(remoteRoot <= remotePath) ==> r == remotePath
    {
      Rebase(remotePath, remoteRoot, localRoot)
    }

  }

  /** A rebased path is the target root, one `/`, and a suffix of the original path. */
  lemma RebaseShape(path: string, fromRoot: string, toRoot: string)
    requires fromRoot <= path
    ensures var r := Rebase(path, fromRoot, toRoot);
      var base := RStrip(toRoot, '/');
      && base + "/" <= r
      && var rest := r[|base| + 1..];
      && (rest == [] || rest[0] != '/')
      && |rest| <= |path| - |fromRoot|
      && rest == path[|path| - |rest|..]
  {
    var base := RStrip(toRoot, '/');
    var tail := path[|fromRoot|..];
    var rest := LStrip(tail, '/');
    var r := Rebase(path, fromRoot, toRoot);
    assert r == (base + "/") + rest;
    assert r[|base| + 1..] == rest;
    assert rest == tail[|tail| - |rest|..];
    assert tail[|tail| - |rest|..] == path[|path| - |rest|..];
  }

  /**
   * With roots that do not end in `/`, a path `localRoot + "/" + rel` (with `rel` not starting
   * with `/`) maps to `remoteRoot + "/" + rel`, and mapping back gives the path again; the same
   * holds the other way round.
   */
  lemma {:induction false} PathMappingRoundTrip(m: PathMapping, rel: string)
    requires RStrip(m.localRoot, '/') == m.localRoot && RStrip(m.remoteRoot, '/') == m.remoteRoot
    requires rel == [] || rel[0] != '/'
    ensures m.ToRemote(m.localRoot + "/" + rel) == m.remoteRoot + "/" + rel
    ensures m.ToLocal(m.ToRemote(m.localRoot + "/" + rel)) == m.localRoot + "/" + rel
    ensures m.ToLocal(m.remoteRoot + "/" + rel) == m.localRoot + "/" + rel
    ensures m.ToRemote(m.ToLocal(m.remoteRoot + "/" + rel)) == m.remoteRoot + "/" + rel
  {
    RebaseOnto(m.localRoot, m.remoteRoot, rel);
    RebaseOnto(m.remoteRoot, m.localRoot, rel);
  }

  lemma RebaseOnto(fromRoot: string, toRoot: string, rel: string)
    requires RStrip(toRoot, '/') == toRoot
    requires rel == [] || rel[0] != '/'
    ensures Rebase(fromRoot + "/" + rel, fromRoot, toRoot) == toRoot + "/" + rel
  {
    var tail := ['/'] + rel;
    RebaseTail(fromRoot, tail, toRoot);
    assert fromRoot + "/" + rel == fromRoot + tail;
    LStripOne(rel, '/');
    LStripNoLeading(rel, '/');
  }

  /** A string that does not end in `c` is its own `rstrip(c)`. */
  lemma RStripNoTrailing(s: string, c: char)
    requires s == [] || s[|s| - 1] != c
    ensures RStrip(s, c) == s
  {
  }

  /** A string that does not start with `c` is its own `lstrip(c)`. */
  lemma LStripNoLeading(s: string, c: char)
    requires s == [] || s[0] != c
    ensures LStrip(s, c) == s
  {
  }

  /** The mappings of the unit tests: `/home/user/project` on the host is `/app` inside. */
  lemma PathMappingExamples()
    ensures PathMapping("/home/user/project", "/app").ToRemote("/home/user/project/src/main.py")
      == "/app/src/main.py"
    ensures PathMapping("/home/user/project", "/app").ToLocal("/app/src/main.py")
      == "/home/user/project/src/main.py"
  {
    var m := PathMapping("/home/user/project", "/app");
    RStripNoTrailing(m.localRoot, '/');
    RStripNoTrailing(m.remoteRoot, '/');
    assert m.localRoot + "/" + "src/main.py" == "/home/user/project/src/main.py";
    assert m.remoteRoot + "/" + "src/main.py" == "/app/src/main.py";
    PathMappingRoundTrip(m, "src/main.py");
  }

  /** Paths outside both roots are returned unchanged, as the unit tests expect. */
  lemma PathMappingOutsideExamples()
    ensures PathMapping("/home/user/project", "/app").ToRemote("/other/path") == "/other/path"
    ensures PathMapping("/home/user/project", "/app").ToLocal("/other/path") == "/other/path"
  {
    assert "/other/path"[1] != "/home/user/project"[1];
    assert "/other/path"[1] != "/app"[1];
  }

  /**
   * As written, the root test is a character prefix, so a sibling directory whose name
   * merely extends the root's last component is rewritten too, and the round trip breaks.
   */
  lemma SiblingDirectoryIsRewritten()
    ensures PathMapping("/home/user/project", "/app").ToRemote("/home/user/project2/x.py")
      == "/app/2/x.py"
    ensures PathMapping("/home/user/project", "/app").ToLocal("/app/2/x.py")
      == "/home/user/project/2/x.py"
    ensures PathMapping("/home/user/project", "/app").ToLocal("/app/2/x.py")
      != "/home/user/project2/x.py"
  {
    SiblingToRemote();
    SiblingBackToLocal();
    assert "/home/user/project/2/x.py"[18] != "/home/user/project2/x.py"[18];
  }

  lemma SiblingToRemote()
    ensures PathMapping("/home/user/project", "/app").ToRemote("/home/user/project2/x.py") == "/app/2/x.py"
  {
    var local, remote := "/home/user/project", "/app";
    RStripNoTrailing(remote, '/');
    LStripNoLeading("2/x.py", '/');
    RebaseTail(local, "2/x.py", remote);
    assert local + "2/x.py" == "/home/user/project2/x.py";
    assert remote + "/" + "2/x.py" == "/app/2/x.py";
  }

  lemma SiblingBackToLocal()
    ensures PathMapping("/home/user/project", "/app").ToLocal("/app/2/x.py") == "/home/user/project/2/x.py"
  {
    var local, remote := "/home/user/project", "/app";
    RStripNoTrailing(local, '/');
    LStripNoLeading("2/x.py", '/');
    assert LStrip("/2/x.py", '/') == "2/x.py" by {
      assert "/2/x.py"[1..] == "2/x.py";
    }
    RebaseTail(remote, "/2/x.py", local);
    assert remote + "/2/x.py" == "/app/2/x.py";
    assert local + "/" + "2/x.py" == "/home/user/project/2/x.py";
  }

  /** Rebasing a path `fromRoot + tail` keeps the tail without its leading slashes. */
  lemma RebaseTail(fromRoot: string, tail: string, toRoot: string)
    ensures Rebase(fromRoot + tail, fromRoot, toRoot) == RStrip(toRoot, '/') + "/" + LStrip(tail, '/')
  {
    assert fromRoot <= fromRoot + tail;
    assert (fromRoot + tail)[|fromRoot|..] == tail;
  }

  /** `path` is the root directory itself or lies below it (whole path components). */
  predicate UnderRoot(path: string, root: string) {
    path == root || RStrip(root, '/') + "/" <= path
  }

  /** The rebasing the docstrings describe: only paths below the root are rewritten. */
  function RebaseOnBoundary(path: string, fromRoot: string, toRoot: string): (r: string)
    ensures !UnderRoot(path, fromRoot) ==> r == path
    ensures UnderRoot(path, fromRoot) ==> RStrip(toRoot, '/') + "/" <= r
  {
    if UnderRoot(path, fromRoot) then
      var cut := if path == fromRoot then |path| else |RStrip(fromRoot, '/')|;
      RStrip(toRoot, '/') + "/" + LStrip(path[cut..], '/')
    else path
  }

  /** Path components are kept: the sibling directory of the root is left alone. */
  lemma OnBoundarySiblingUntouched()
    ensures RebaseOnBoundary("/home/user/project2/x.py", "/home/user/project", "/app")
      == "/home/user/project2/x.py"
  {
    RStripNoTrailing("/home/user/project", '/');
    assert "/home/user/project2/x.py"[18] != '/';
  }

  /** The corrected rebasing round-trips exactly as the character-prefix one does. */
  lemma {:induction false} OnBoundaryRoundTrip(fromRoot: string, toRoot: string, rel: string)
    requires RStrip(fromRoot, '/') == fromRoot && RStrip(toRoot, '/') == toRoot
    requires rel == [] || rel[0] != '/'
    ensures RebaseOnBoundary(fromRoot + "/" + rel, fromRoot, toRoot) == toRoot + "/" + rel
    ensures RebaseOnBoundary(toRoot + "/" + rel, toRoot, fromRoot) == fromRoot + "/" + rel
  {
    OnBoundaryOnto(fromRoot, toRoot, rel);
    OnBoundaryOnto(toRoot, fromRoot, rel);
  }

  lemma OnBoundaryOnto(fromRoot: string, toRoot: string, rel: string)
    requires RStrip(fromRoot, '/') == fromRoot && RStrip(toRoot, '/') == toRoot
    requires rel == [] || rel[0] != '/'
    ensures RebaseOnBoundary(fromRoot + "/" + rel, fromRoot, toRoot) == toRoot + "/" + rel
  {
    var p := fromRoot + "/" + rel;
    assert fromRoot + "/" <= p;
    assert p != fromRoot;
    assert p[|fromRoot|..] == "/" + rel;
    assert LStrip("/" + rel, '/') == LStrip(rel, '/') by {
      assert ("/" + rel)[1..] == rel;
    }
  }

  // ---------------------------------------------------------------------------
  // SSH configuration and targets
  // ---------------------------------------------------------------------------

  datatype SSHConfig = SSHConfig(
    host: string,
    user: string,
    port: int,
    keyPath: Option<string>,
    password: Option<string>,
    jumpHost: Option<string>,
    jumpUser: Option<string>,
    jumpKeyPath: Option<string>)

  /** `SSHConfig(host=..., user=...)` with every other field at its default. */
  function NewSSHConfig(host: string, user: string): (c: SSHConfig)
    ensures c.host == host && c.user == user
    ensures c.port == 22
    ensures c.keyPath.None? && c.password.None?
    ensures c.jumpHost.None? && c.jumpUser.None? && c.jumpKeyPath.None?
  {
    SSHConfig(host, user, 22, None, None, None, None, None)
  }

  datatype ContainerTarget = ContainerTarget(
    runtime: ContainerRuntime,
    containerId: Option<string>,
    containerName: Option<string>,
    namespace: string,
    podName: Option<string>,
    podContainer: Option<string>,
    ssh: Option<SSHConfig>)
  {
    /**
     * A human-readable name for the target: `namespace/pod[/container]` for Kubernetes,
     * otherwise the container name, else its id, else `unknown`.
     */
    function Identifier(): (r: string)
      ensures runtime == Kubernetes ==> namespace + "/" <= r
      ensures runtime != Kubernetes ==> r != ""
      ensures runtime != Kubernetes && Truthy(containerName) ==> r == containerName.value
      ensures runtime != Kubernetes && !Truthy(containerName) && Truthy(containerId) ==>
        r == containerId.value
      ensures runtime != Kubernetes && !Truthy(containerName) && !Truthy(containerId) ==>
        r == "unknown"
    {
      if runtime == Kubernetes then
        var containerSuffix := if Truthy(podContainer) then "/" + podContainer.value else "";
        namespace + "/" + Render(podName) + containerSuffix
      else Or(containerName, Or(containerId, "unknown"))
    }
  }

  /** `ContainerTarget(runtime=...)` with every other field at its default. */
  function NewTarget(runtime: ContainerRuntime): (t: ContainerTarget)
    ensures t.runtime == runtime
    ensures t.namespace == "default"
    ensures t.containerId.None? && t.containerName.None?
    ensures t.podName.None? && t.podContainer.None? && t.ssh.None?
  {
    ContainerTarget(runtime, None, None, "default", None, None, None)
  }

  /**
   * A Kubernetes identifier splits at `/` back into the namespace, the pod name and (when
   * set) the container, provided none of them contains a `/` itself.
   */
  lemma {:induction false} KubernetesIdentifierSplits(t: ContainerTarget, pod: string)
    requires t.runtime == Kubernetes && t.podName == Some(pod)
    requires '/' !in t.namespace && '/' !in pod
    requires t.podContainer.Some? ==> '/' !in t.podContainer.value
    ensures !Truthy(t.podContainer) ==> SplitOn(t.Identifier(), '/') == [t.namespace, pod]
    ensures Truthy(t.podContainer) ==>
      SplitOn(t.Identifier(), '/') == [t.namespace, pod, t.podContainer.value]
  {
    var ns := t.namespace;
    if Truthy(t.podContainer) {
      var c := t.podContainer.value;
      assert t.Identifier() == ns + "/" + (pod + "/" + c);
      SplitOnFree(c, '/');
      SplitOnCons(pod, '/', c);
      SplitOnCons(ns, '/', pod + "/" + c);
    } else {
      assert t.Identifier() == ns + "/" + pod;
      SplitOnFree(pod, '/');
      SplitOnCons(ns, '/', pod);
    }
  }

  /** The identifiers of the unit tests. */
  lemma IdentifierExamples()
    ensures NewTarget(Docker).(containerName := Some("my-container")).Identifier() == "my-container"
    ensures NewTarget(Kubernetes).(namespace := "production", podName := Some("my-pod")).Identifier()
      == "production/my-pod"
    ensures NewTarget(Kubernetes)
      .(namespace := "production", podName := Some("my-pod"), podContainer := Some("app"))
      .Identifier() == "production/my-pod/app"
    ensures NewTarget(Docker).Identifier() == "unknown"
  {
  }
}
