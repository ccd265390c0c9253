/**
 * router.py as it runs: every function acts on one shared, mutable host (the switch and the
 * container runtime), which its methods read and change in place. Each method is proved to
 * leave the host and return exactly what the matching function of Lifecycle describes.
 */
module Router {
  import opened Base
  import opened Text
  import opened Commands
  import opened Environment
  import L = Lifecycle

  /**
   * The host the router code runs against. The process runner and the runtime client are its
   * primitive steps; what they do is given by the Environment module.
   */
  class Host {
    var bridges: seq<string>
    var ports: map<string, seq<string>>
    var containers: seq<Container>
    var ovsUp: bool
    var dockerUp: bool
    var procs: seq<seq<string>>
    var calls: seq<ApiCall>

    function State(): Env
      reads this
    {
      Env(bridges, ports, containers, ovsUp, dockerUp, procs, calls)
    }

    constructor (e: Env)
      ensures State() == e
    {
      bridges, ports, containers := e.bridges, e.ports, e.containers;
      ovsUp, dockerUp, procs, calls := e.ovsUp, e.dockerUp, e.procs, e.calls;
    }

    method Become(e: Env)
      modifies this
      ensures State() == e
    {
      bridges, ports, containers := e.bridges, e.ports, e.containers;
      ovsUp, dockerUp, procs, calls := e.ovsUp, e.dockerUp, e.procs, e.calls;
    }

    /** subprocess.Popen(cmd, stdout=PIPE) followed by communicate(). */
    method Popen(cmd: seq<string>) returns (p: Proc)
      modifies this
      ensures (State(), p) == RunProcess(old(State()), cmd)
    {
      var (e, q) := RunProcess(State(), cmd);
      Become(e);
      p := q;
    }

    method ListContainers() returns (r: Result<seq<Container>, DockerError>)
      modifies this
      ensures (State(), r) == DockerList(old(State()))
    {
      var (e, q) := DockerList(State());
      Become(e);
      r := q;
    }

    method RunContainer(image: string, name: string, privileged: bool, caps: seq<string>)
      returns (r: Result<Container, DockerError>)
      modifies this
      ensures (State(), r) == DockerRun(old(State()), image, name, privileged, caps)
    {
      var (e, q) := DockerRun(State(), image, name, privileged, caps);
      Become(e);
      r := q;
    }

    method GetContainer(name: string) returns (r: Result<Container, DockerError>)
      modifies this
      ensures (State(), r) == DockerGet(old(State()), name)
    {
      var (e, q) := DockerGet(State(), name);
      Become(e);
      r := q;
    }

    method ExecIn(name: string, cmd: string) returns (r: Result<(), DockerError>)
      modifies this
      ensures (State(), r) == DockerExec(old(State()), name, cmd)
    {
      var (e, q) := DockerExec(State(), name, cmd);
      Become(e);
      r := q;
    }

    method StopContainer(name: string) returns (r: Result<(), DockerError>)
      modifies this
      ensures (State(), r) == DockerStop(old(State()), name)
    {
      var (e, q) := DockerStop(State(), name);
      Become(e);
      r := q;
    }

    method RemoveContainer(name: string) returns (r: Result<(), DockerError>)
      modifies this
      ensures (State(), r) == DockerRemove(old(State()), name)
    {
      var (e, q) := DockerRemove(State(), name);
      Become(e);
      r := q;
    }
  }

  /** call_popen(cmd) */
  method CallPopen(h: Host, cmd: seq<string>) returns (r: Result<string, Failure>)
    modifies h
    ensures (h.State(), r) == L.CallPopen(old(h.State()), cmd)
  {
    var p := h.Popen(cmd);
    if p.code != 0 {
      return Err(ExecutionFailed(cmd));
    }
    if p.stdout.None? {
      return Ok("");
    }
    return Ok(Strip(p.stdout.value));
  }

  /** call_prog(prog, args_list) */
  method CallProg(h: Host, prog: string, args: seq<string>) returns (r: Result<string, Failure>)
    modifies h
    ensures (h.State(), r) == L.CallPopen(old(h.State()), CallProgCmd(prog, args))
  {
    var cmd := ["sudo", prog] + ToolFlags + args;
    r := CallPopen(h, cmd);
  }

  /** call_prog2(prog, args_list) */
  method CallProg2(h: Host, prog: string, args: seq<string>) returns (r: Result<string, Failure>)
    modifies h
    ensures (h.State(), r) == L.CallPopen(old(h.State()), CallProg2Cmd(prog, args))
  {
    var cmd := ["sudo", prog] + args + ToolFlags;
    r := CallPopen(h, cmd);
  }

  /** ovs_vsctl(*args) */
  method OvsVsctl(h: Host, args: seq<string>) returns (r: Result<string, Failure>)
    modifies h
    ensures (h.State(), r) == L.OvsVsctl(old(h.State()), args)
  {
    r := CallProg(h, "ovs-vsctl", args);
  }

  /** pipework(*args) */
  method Pipework(h: Host, args: seq<string>) returns (r: Result<string, Failure>)
    modifies h
    ensures (h.State(), r) == L.RunPipeworkTool(old(h.State()), args)
  {
    r := CallProg2(h, "pipework", args);
  }

  /** run_router(name): scan every container, stopped ones included, before starting one. */
  method RunRouter(h: Host, name: string) returns (r: Result<L.Status, Failure>)
    modifies h
    ensures L.Step(h.State(), r) == L.RunRouter(old(h.State()), name)
  {
    var listed := h.ListContainers();
    if listed.Err? {
      return Err(DockerFailed(listed.error));
    }
    var cs := listed.value;
    var i := 0;
    while i < |cs|
      invariant 0 <= i <= |cs|
      invariant forall j :: 0 <= j < i ==> cs[j].name != name
    {
      if cs[i].name == name {
        return Ok(L.AlreadyExists);
      }
      i := i + 1;
    }
    var ran := h.RunContainer(ContainerImage, name, true, KernelCaps);
    match ran
    case Err(err) => return Err(DockerFailed(err));
    case Ok(_) => return Ok(L.Created);
  }

  /** stop_router(name): stop and force-remove the first container called `name`. */
  method StopRouter(h: Host, name: string) returns (r: Result<L.Status, Failure>)
    modifies h
    ensures L.Step(h.State(), r) == L.StopRouter(old(h.State()), name)
  {
    var listed := h.ListContainers();
    if listed.Err? {
      return Err(DockerFailed(listed.error));
    }
    var cs := listed.value;
    var i := 0;
    while i < |cs|
      invariant 0 <= i <= |cs|
      invariant forall j :: 0 <= j < i ==> cs[j].name != name
    {
      if cs[i].name == name {
        assert FindNamed(cs, name) == Some(i);
        var stopped := h.StopContainer(cs[i].name);
        match stopped
        case Err(err) => return Err(DockerFailed(err));
        case Ok(_) =>
          var removed := h.RemoveContainer(cs[i].name);
          match removed
          case Err(err) => return Err(DockerFailed(err));
          case Ok(_) => return Ok(L.Removed);
      }
      i := i + 1;
    }
    return Ok(L.Absent);
  }

  /** create_bridge(name) */
  method CreateBridge(h: Host, name: string) returns (r: Result<L.Status, Failure>)
    modifies h
    ensures L.Step(h.State(), r) == L.CreateBridge(old(h.State()), name)
  {
    var bridgeName := BridgeName(name);
    var listed := OvsVsctl(h, ["list-br"]);
    if listed.Err? {
      return Err(listed.error);
    }
    if bridgeName in SplitLines(listed.value) {
      return Ok(L.AlreadyExists);
    }
    var added := OvsVsctl(h, ["add-br", bridgeName]);
    if added.Err? {
      return Err(added.error);
    }
    return Ok(L.Created);
  }

  /** delete_bridge(name) */
  method DeleteBridge(h: Host, name: string) returns (r: Result<L.Status, Failure>)
    modifies h
    ensures L.Step(h.State(), r) == L.DeleteBridge(old(h.State()), name)
  {
    var bridgeName := BridgeName(name);
    var listed := OvsVsctl(h, ["list-br"]);
    if listed.Err? {
      return Err(listed.error);
    }
    if bridgeName !in SplitLines(listed.value) {
      return Ok(L.Absent);
    }
    var deleted := OvsVsctl(h, ["del-br", bridgeName]);
    if deleted.Err? {
      return Err(deleted.error);
    }
    return Ok(L.Removed);
  }

  /** config_pipework(name) */
  method ConfigPipework(h: Host, name: string) returns (r: Result<L.Status, Failure>)
    modifies h
    ensures L.Step(h.State(), r) == L.ConfigPipework(old(h.State()), name)
  {
    var bridgeName := BridgeName(name);
    var listed := OvsVsctl(h, ["list-ports", bridgeName]);
    if listed.Err? {
      return Err(listed.error);
    }
    if name in SplitLines(listed.value) {
      return Ok(L.AlreadyAttached);
    }
    var attached := Pipework(h, PipeworkArgs(name));
    if attached.Err? {
      return Err(attached.error);
    }
    return Ok(L.Enforced);
  }

  /** config_nat(name) */
  method ConfigNat(h: Host, name: string) returns (r: Result<L.Status, Failure>)
    modifies h
    ensures L.Step(h.State(), r) == L.ConfigNat(old(h.State()), name)
  {
    var got := h.GetContainer(name);
    if got.Err? && got.error.NotFound? {
      return Ok(L.Absent);
    }
    if got.Err? {
      return Err(DockerFailed(got.error));
    }
    var container := h.GetContainer(name);
    match container
    case Err(err) => return Err(DockerFailed(err));
    case Ok(c) =>
      var executed := h.ExecIn(c.name, NatCommand);
      match executed
      case Err(err) => return Err(DockerFailed(err));
      case Ok(_) => return Ok(L.Enforced);
  }
}
