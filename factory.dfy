/**
 * The runtime factory (containers/factory.py): a registry from runtime to adapter class,
 * filled with the built-in adapters, from which adapters are created by runtime name.
 */
module Factory {
  import opened Wrappers
  import opened Strings
  import opened ContainerTargets
  import opened ContainerErrors
  import opened Docker
  import opened Podman
  import opened Kubernetes

  /** The adapter classes there are. */
  datatype AdapterClass = DockerClass | PodmanClass | KubernetesClass

  /** An adapter instance: Docker's (which Podman's is, with its tool overridden) or Kubernetes'. */
  datatype Adapter = DockerAdapter(docker: DockerRuntime) | KubernetesAdapter(kubernetes: KubernetesRuntime) {
    /** `runtime_type`. */
    function RuntimeType(): ContainerRuntime {
      match this
      case DockerAdapter(d) => d.runtimeType
      case KubernetesAdapter(k) => k.RuntimeType()
    }

    /** `cli_command`. */
    function CliCommand(): string {
      match this
      case DockerAdapter(d) => d.CliCommand()
      case KubernetesAdapter(k) => k.CliCommand()
    }
  }

  /** The tool each built-in adapter created without arguments runs. */
  function DefaultTool(rt: ContainerRuntime): string {
    match rt
    case Docker => "docker"
    case Podman => "podman"
    case Kubernetes => "kubectl"
  }

  /** `create_runtime` takes a runtime name or an enum member. */
  datatype RuntimeArg = RuntimeName(name: string) | RuntimeMember(member: ContainerRuntime)

  /** Every runtime value, in declaration order, as the error lists them. */
  function AllValues(): (values: seq<string>)
    ensures values == ["docker", "podman", "kubernetes"]
  {
    seq(|AllRuntimes|, i requires 0 <= i < |AllRuntimes| => AllRuntimes[i].Value())
  }

  /** `UnsupportedRuntimeError(runtime)`. */
  function UnsupportedRuntimeError(runtime: string): (e: ContainerError)
    ensures e.kind == Unsupported && Some(e.code) == CodeOf(Unsupported)
    ensures e.details == map["runtime" := Text(runtime), "supported" := Texts(AllValues())]
  {
    ContainerError(Unsupported, "Container runtime '" + runtime + "' is not supported", "UNSUPPORTED_RUNTIME",
      map["runtime" := Text(runtime), "supported" := Texts(AllValues())], [])
  }

  /** A name is turned into a member by lower-casing it and looking its value up. */
  function ResolveRuntime(arg: RuntimeArg): Result<ContainerRuntime, ContainerError> {
    match arg
    case RuntimeMember(m) => Ok(m)
    case RuntimeName(s) =>
      match RuntimeFromValue(Lower(s))
      case None => Err(UnsupportedRuntimeError(s))
      case Some(m) => Ok(m)
  }

  /**
   * A name resolves exactly when its lower-cased form is a runtime value, to the member with
   * that value, so case does not matter; an unknown name is reported as it was given.
   */
  lemma ResolveRuntimeCases(s: string)
    ensures ResolveRuntime(RuntimeName(s)).Ok? <==> Lower(s) in AllValues()
    ensures ResolveRuntime(RuntimeName(s)).Ok? ==> ResolveRuntime(RuntimeName(s)).value.Value() == Lower(s)
    ensures ResolveRuntime(RuntimeName(s)).Err? ==> ResolveRuntime(RuntimeName(s)).error == UnsupportedRuntimeError(s)
    ensures ResolveRuntime(RuntimeName(Lower(s))).Ok? == ResolveRuntime(RuntimeName(s)).Ok?
  {
    LowerIdempotent(s);
    if Lower(s) in AllValues() {
      var i :| 0 <= i < 3 && AllValues()[i] == Lower(s);
      RuntimeValueRoundTrip(AllRuntimes[i]);
    }
  }

  /** Every member resolves from its value, written in any case the lower-casing undoes. */
  lemma ResolveEveryValue(rt: ContainerRuntime, s: string)
    requires Lower(s) == rt.Value()
    ensures ResolveRuntime(RuntimeName(s)) == Ok(rt)
    ensures ResolveRuntime(RuntimeName(rt.Value())) == Ok(rt)
  {
    RuntimeValueRoundTrip(rt);
    LowerOfLowerCaseValue(rt);
  }

  /** Runtime values are already lower case. */
  lemma LowerOfLowerCaseValue(rt: ContainerRuntime)
    ensures Lower(rt.Value()) == rt.Value()
  {
    var v := rt.Value();
    assert forall i :: 0 <= i < |v| ==> 'a' <= v[i] <= 'z';
    assert forall i :: 0 <= i < |v| ==> LowerChar(v[i]) == v[i];
  }

  /** The error an unexpected keyword argument raises. */
  const UnexpectedKeyword := TypeError("unexpected keyword argument")

  /**
   * What `cls(**kwargs)` gives: each constructor takes only its own keyword arguments
   * (`cli_override` for Docker, none for Podman, `context` and `kubeconfig` for Kubernetes),
   * each left out being `None`, and any other is a `TypeError`.
   */
  ghost predicate InstanceOf(cls: AdapterClass, kwargs: map<string, string>, r: Result<Adapter, Failure>)
    reads if r.Ok? && r.value.KubernetesAdapter? then {r.value.kubernetes} else {}
  {
    match cls
    case DockerClass =>
      r == (if kwargs.Keys <= {"cli_override"} then Ok(DockerAdapter(NewDockerRuntime(Lookup(kwargs, "cli_override"))))
            else Err(UnexpectedKeyword))
    case PodmanClass =>
      r == (if kwargs == map[] then Ok(DockerAdapter(NewPodmanRuntime())) else Err(UnexpectedKeyword))
    case KubernetesClass =>
      if kwargs.Keys <= {"context", "kubeconfig"} then
        && r.Ok? && r.value.KubernetesAdapter?
        && r.value.kubernetes.context == Lookup(kwargs, "context")
        && r.value.kubernetes.kubeconfig == Lookup(kwargs, "kubeconfig")
        && r.value.kubernetes.portForwards == map[]
      else r == Err(UnexpectedKeyword)
  }

  /** `cls(**kwargs)`; a Kubernetes adapter is a new object with no port-forwards yet. */
  method Instantiate(cls: AdapterClass, kwargs: map<string, string>) returns (r: Result<Adapter, Failure>)
    ensures InstanceOf(cls, kwargs, r)
    ensures r.Ok? && r.value.KubernetesAdapter? ==> fresh(r.value.kubernetes)
  {
    match cls {
      case DockerClass =>
        if kwargs.Keys <= {"cli_override"} {
          return Ok(DockerAdapter(NewDockerRuntime(Lookup(kwargs, "cli_override"))));
        }
      case PodmanClass =>
        if kwargs == map[] {
          return Ok(DockerAdapter(NewPodmanRuntime()));
        }
      case KubernetesClass =>
        if kwargs.Keys <= {"context", "kubeconfig"} {
          var k := new KubernetesRuntime(Lookup(kwargs, "context"), Lookup(kwargs, "kubeconfig"));
          return Ok(KubernetesAdapter(k));
        }
    }
    return Err(UnexpectedKeyword);
  }

  /**
   * A built-in adapter reports the runtime it was registered for and runs its own tool:
   * `docker` unless overridden, `podman`, or `kubectl`.
   */
  lemma BuiltinRuntimeTypes(kwargs: map<string, string>, r: Result<Adapter, Failure>)
    ensures InstanceOf(DockerClass, kwargs, r) ==> (r.Ok? <==> kwargs.Keys <= {"cli_override"})
    ensures InstanceOf(DockerClass, kwargs, r) && r.Ok? ==>
      && r.value.RuntimeType() == ContainerRuntime.Docker
      && ("cli_override" !in kwargs || kwargs["cli_override"] == "" ==> r.value.CliCommand() == "docker")
      && ("cli_override" in kwargs && kwargs["cli_override"] != "" ==> r.value.CliCommand() == kwargs["cli_override"])
    ensures InstanceOf(PodmanClass, kwargs, r) ==> (r.Ok? <==> kwargs == map[])
    ensures InstanceOf(PodmanClass, kwargs, r) && r.Ok? ==>
      r.value.RuntimeType() == ContainerRuntime.Podman && r.value.CliCommand() == "podman"
    ensures InstanceOf(KubernetesClass, kwargs, r) ==> (r.Ok? <==> kwargs.Keys <= {"context", "kubeconfig"})
    ensures InstanceOf(KubernetesClass, kwargs, r) && r.Ok? ==>
      r.value.RuntimeType() == ContainerRuntime.Kubernetes && r.value.CliCommand() == "kubectl"
  {
  }

  /** A keyword argument, or its default `None`. */
  function Lookup(kwargs: map<string, string>, name: string): (o: Option<string>)
    ensures o.Some? <==> name in kwargs
    ensures o.Some? ==> o.value == kwargs[name]
  {
    if name in kwargs then Some(kwargs[name]) else None
  }

  /** `_RUNTIME_REGISTRY`: the adapter class of each registered runtime, in registration order. */
  class RuntimeRegistry {
    var classes: map<ContainerRuntime, AdapterClass>
    /** The keys of `classes` in the order a dict iterates them: first insertion first. */
    var order: seq<ContainerRuntime>

    /** `order` lists each registered runtime exactly once. */
    predicate Valid()
      reads this
    {
      && (forall i, j :: 0 <= i < j < |order| ==> order[i] != order[j])
      && (forall rt :: rt in classes <==> rt in order)
    }

    constructor ()
      ensures Valid() && classes == map[] && order == []
    {
      classes := map[];
      order := [];
    }

    /** `register_runtime(runtime)(cls)`: a new runtime goes last, a known one keeps its place. */
    method Register(runtime: ContainerRuntime, cls: AdapterClass)
      requires Valid()
      modifies this
      ensures Valid()
      ensures classes == old(classes)[runtime := cls]
      ensures order == if runtime in old(classes) then old(order) else old(order) + [runtime]
    {
      if runtime !in classes {
        order := order + [runtime];
      }
      classes := classes[runtime := cls];
    }

    /** `_register_builtin_runtimes`: Docker, Podman, then Kubernetes. */
    method RegisterBuiltins()
      requires Valid()
      modifies this
      ensures Valid()
      ensures classes == old(classes)[ContainerRuntime.Docker := DockerClass][ContainerRuntime.Podman := PodmanClass]
        [ContainerRuntime.Kubernetes := KubernetesClass]
      ensures old(order) == [] ==> order == AllRuntimes
    {
      Register(ContainerRuntime.Docker, DockerClass);
      Register(ContainerRuntime.Podman, PodmanClass);
      Register(ContainerRuntime.Kubernetes, KubernetesClass);
    }

    /** `get_supported_runtimes`: the values of the registered runtimes, in registration order. */
    function SupportedRuntimes(): (values: seq<string>)
      reads this
      requires Valid()
      ensures |values| == |order| && forall i :: 0 <= i < |order| ==> values[i] == order[i].Value()
      ensures forall v :: v in values <==> exists rt :: rt in classes && rt.Value() == v
    {
      seq(|order|, i requires 0 <= i < |order| reads this => order[i].Value())
    }

    /** `is_runtime_supported`: the lower-cased name is a runtime with an adapter. */
    function IsRuntimeSupported(name: string): (supported: bool)
      reads this
      ensures supported <==> exists rt :: rt in classes && rt.Value() == Lower(name)
    {
      match RuntimeFromValue(Lower(name))
      case None => false
      case Some(rt) => rt in classes
    }

    /**
     * `create_runtime`: resolve the runtime, find its adapter class, then instantiate it. An
     * unknown name is reported as given, a runtime without an adapter by its value.
     */
    method CreateRuntime(runtime: RuntimeArg, kwargs: map<string, string>) returns (r: Result<Adapter, Failure>)
      ensures ResolveRuntime(runtime).Err? ==> r == Err(Raised(ResolveRuntime(runtime).error))
      ensures ResolveRuntime(runtime).Ok? && ResolveRuntime(runtime).value !in classes ==>
        r == Err(Raised(UnsupportedRuntimeError(ResolveRuntime(runtime).value.Value())))
      ensures ResolveRuntime(runtime).Ok? && ResolveRuntime(runtime).value in classes ==>
        InstanceOf(classes[ResolveRuntime(runtime).value], kwargs, r)
      ensures r.Ok? && r.value.KubernetesAdapter? ==> fresh(r.value.kubernetes)
    {
      var resolved := ResolveRuntime(runtime);
      if resolved.Err? {
        return Err(Raised(resolved.error));
      }
      var rt := resolved.value;
      if rt !in classes {
        return Err(Raised(UnsupportedRuntimeError(rt.Value())));
      }
      r := Instantiate(classes[rt], kwargs);
    }

    /** `create_runtime_for_target`: the adapter for the target's runtime. */
    method CreateRuntimeForTarget(target: ContainerTarget, kwargs: map<string, string>) returns (r: Result<Adapter, Failure>)
      ensures target.runtime !in classes ==> r == Err(Raised(UnsupportedRuntimeError(target.runtime.Value())))
      ensures target.runtime in classes ==> InstanceOf(classes[target.runtime], kwargs, r)
      ensures r.Ok? && r.value.KubernetesAdapter? ==> fresh(r.value.kubernetes)
    {
      r := CreateRuntime(RuntimeMember(target.runtime), kwargs);
    }
  }

  /**
   * With the built-ins registered every runtime is supported, named in any case, and the
   * supported list is the three values in registration order.
   */
  lemma BuiltinsSupportEverything(reg: RuntimeRegistry, name: string)
    requires reg.Valid() && reg.order == AllRuntimes
    ensures reg.SupportedRuntimes() == AllValues()
    ensures reg.IsRuntimeSupported(name) <==> Lower(name) in AllValues()
  {
    var values := reg.SupportedRuntimes();
    assert values[0] == "docker" && values[1] == "podman" && values[2] == "kubernetes";
    assert ContainerRuntime.Docker in reg.classes && ContainerRuntime.Podman in reg.classes;
    assert ContainerRuntime.Kubernetes in reg.classes;
    ResolveRuntimeCases(name);
  }

  /**
   * `create_runtime(name)` after the built-ins are registered: a runtime named in any case
   * gives an adapter of that runtime type that runs its default tool.
   */
  method CreateBuiltinByName(rt: ContainerRuntime, name: string) returns (r: Result<Adapter, Failure>)
    requires Lower(name) == rt.Value()
    ensures r.Ok? && r.value.RuntimeType() == rt && r.value.CliCommand() == DefaultTool(rt)
  {
    var registry := new RuntimeRegistry();
    registry.RegisterBuiltins();
    ResolveEveryValue(rt, name);
    r := registry.CreateRuntime(RuntimeName(name), map[]);
    BuiltinRuntimeTypes(map[], r);
  }
}
