/**
 * The host the router code acts on, as a value: the OVS switch (bridges and their ports), the
 * container runtime (containers, each with the NAT rules executed in it), whether each service
 * is reachable, and the log of every process started and every runtime call made. The external
 * tools are modelled only by their effect on this state and by their exit codes.
 */
module Environment {
  import opened Base
  import opened Text
  import opened Commands

  datatype Container = Container(
    name: string,
    image: string,
    privileged: bool,
    caps: seq<string>,
    running: bool,
    natRules: seq<string>)

  /** A request to the container runtime, as the router code issues it. */
  datatype ApiCall =
    | ListAll
    | RunDetached(image: string, name: string, privileged: bool, caps: seq<string>)
    | Get(name: string)
    | ExecDetached(name: string, cmd: string)
    | Stop(name: string)
    | RemoveForced(name: string)

  /** A finished process: its exit code and its standard output, if any was captured. */
  datatype Proc = Proc(code: int, stdout: Option<string>)

  datatype Env = Env(
    bridges: seq<string>,             // in the order list-br prints them
    ports: map<string, seq<string>>,  // the ports of each bridge, in list-ports order
    containers: seq<Container>,       // in the order the runtime lists them, stopped ones included
    ovsUp: bool,                      // the switch database answers
    dockerUp: bool,                   // the container runtime answers
    procs: seq<seq<string>>,          // every command vector handed to the process runner
    calls: seq<ApiCall>)              // every request made to the container runtime

  predicate Distinct(s: seq<string>) {
    forall i, j :: 0 <= i < j < |s| ==> s[i] != s[j]
  }

  predicate AllTokens(s: seq<string>) {
    forall i :: 0 <= i < |s| ==> IsToken(s[i])
  }

  predicate UniqueNames(cs: seq<Container>) {
    forall i, j :: 0 <= i < j < |cs| ==> cs[i].name != cs[j].name
  }

  /**
   * What the switch and the runtime guarantee of their own state: bridge and port names are
   * unique tokens, every bridge has a port list, and no two containers share a name.
   */
  predicate Valid(e: Env) {
    && Distinct(e.bridges) && AllTokens(e.bridges)
    && (forall b :: b in e.ports ==> b in e.bridges) && (forall b :: b in e.bridges ==> b in e.ports)
    && (forall b :: b in e.ports ==> Distinct(e.ports[b]) && AllTokens(e.ports[b]))
    && UniqueNames(e.containers)
  }

  /** The resources of two hosts are the same (their logs may differ). */
  predicate SameResources(e: Env, e': Env) {
    e'.bridges == e.bridges && e'.ports == e.ports && e'.containers == e.containers
  }

  /** The first container called `name`, if there is one. */
  function FindNamed(cs: seq<Container>, name: string): (r: Option<nat>)
    ensures r.None? <==> forall i :: 0 <= i < |cs| ==> cs[i].name != name
    ensures r.Some? ==> r.value < |cs| && cs[r.value].name == name
                        && forall i :: 0 <= i < r.value ==> cs[i].name != name
  {
    if cs == [] then None
    else if cs[0].name == name then Some(0)
    else match FindNamed(cs[1..], name)
      case None => None
      case Some(i) => Some(i + 1)
  }

  predicate HasNamed(cs: seq<Container>, name: string) {
    FindNamed(cs, name).Some?
  }

  predicate IsRunning(cs: seq<Container>, name: string) {
    match FindNamed(cs, name)
    case None => false
    case Some(i) => cs[i].running
  }

  /** `s` without `x`. */
  function Without(s: seq<string>, x: string): (r: seq<string>)
    ensures forall y :: y in r <==> y in s && y != x
    ensures x !in s ==> r == s
    ensures Distinct(s) ==> Distinct(r)
    ensures AllTokens(s) ==> AllTokens(r)
  {
    if s == [] then []
    else if s[0] == x then Without(s[1..], x)
    else
      var rest := Without(s[1..], x);
      assert forall i :: 0 <= i < |rest| ==> rest[i] in s[1..];
      [s[0]] + rest
  }

  const Failed := Proc(1, Some(""))
  const Done := Proc(0, Some(""))

  /** An ovs-vsctl command line, once the common flags are taken off. */
  function Vsctl(e: Env, args: seq<string>): (Env, Proc) {
    if !e.ovsUp then (e, Failed)
    else if args == ["list-br"] then (e, Proc(0, Some(Lines(e.bridges))))
    else if |args| == 2 && args[0] == "add-br" then
      var b := args[1];
      if b in e.bridges || !IsToken(b) then (e, Failed)
      else (e.(bridges := e.bridges + [b], ports := e.ports[b := []]), Done)
    else if |args| == 2 && args[0] == "del-br" then
      var b := args[1];
      if b !in e.bridges then (e, Failed)
      else (e.(bridges := Without(e.bridges, b), ports := e.ports - {b}), Done)
    else if |args| == 2 && args[0] == "list-ports" then
      var b := args[1];
      if b !in e.ports then (e, Failed) else (e, Proc(0, Some(Lines(e.ports[b]))))
    else (e, Failed)
  }

  /**
   * A pipework command line `bridge -i intf -l local container cidr mac`: it attaches a new
   * port `local` to an existing bridge for a running container.
   */
  function Pipework(e: Env, args: seq<string>): (Env, Proc) {
    if |args| != 8 || args[1] != "-i" || args[3] != "-l" then (e, Failed)
    else
      var b, local, target := args[0], args[4], args[5];
      if !e.ovsUp || !e.dockerUp || b !in e.ports || !IsRunning(e.containers, target)
         || !IsToken(local) || local in e.ports[b]
      then (e, Failed)
      else (e.(ports := e.ports[b := e.ports[b] + [local]]), Done)
  }

  /** The process runner: every command is logged; only the two known tools do anything. */
  function RunProcess(e: Env, cmd: seq<string>): (Env, Proc) {
    var e0 := e.(procs := e.procs + [cmd]);
    if |cmd| >= 4 && cmd[..4] == ["sudo", "ovs-vsctl"] + ToolFlags then Vsctl(e0, cmd[4..])
    else if |cmd| >= 4 && cmd[..2] == ["sudo", "pipework"] && cmd[|cmd| - 2..] == ToolFlags then
      Pipework(e0, cmd[2..|cmd| - 2])
    else (e0, Proc(127, Some("")))
  }

  lemma RunVsctl(e: Env, args: seq<string>)
    ensures RunProcess(e, VsctlCmd(args)) == Vsctl(e.(procs := e.procs + [VsctlCmd(args)]), args)
  {
  }

  lemma RunPipework(e: Env, args: seq<string>)
    ensures RunProcess(e, PipeworkCmd(args)) == Pipework(e.(procs := e.procs + [PipeworkCmd(args)]), args)
  {
    var cmd := PipeworkCmd(args);
    assert cmd[..4] != ["sudo", "ovs-vsctl"] + ToolFlags by {
      assert cmd[..4][1] == "pipework";
    }
  }

  /** containers.list(all=True) */
  function DockerList(e: Env): (Env, Result<seq<Container>, DockerError>) {
    var e0 := e.(calls := e.calls + [ListAll]);
    if !e.dockerUp then (e0, Err(Unavailable)) else (e0, Ok(e.containers))
  }

  /** containers.run(image, name=name, detach=True, privileged=..., cap_add=caps); the new container runs. */
  function DockerRun(e: Env, image: string, name: string, privileged: bool, caps: seq<string>)
    : (Env, Result<Container, DockerError>)
  {
    var e0 := e.(calls := e.calls + [RunDetached(image, name, privileged, caps)]);
    if !e.dockerUp then (e0, Err(Unavailable))
    else if HasNamed(e.containers, name) then (e0, Err(Conflict(name)))
    else
      var c := Container(name, image, privileged, caps, true, []);
      (e0.(containers := e.containers + [c]), Ok(c))
  }

  /** containers.get(name) */
  function DockerGet(e: Env, name: string): (Env, Result<Container, DockerError>) {
    var e0 := e.(calls := e.calls + [Get(name)]);
    if !e.dockerUp then (e0, Err(Unavailable))
    else match FindNamed(e.containers, name)
      case None => (e0, Err(NotFound(name)))
      case Some(i) => (e0, Ok(e.containers[i]))
  }

  /** container.exec_run(cmd, detach=True): only a running container accepts it. */
  function DockerExec(e: Env, name: string, cmd: string): (Env, Result<(), DockerError>) {
    var e0 := e.(calls := e.calls + [ExecDetached(name, cmd)]);
    if !e.dockerUp then (e0, Err(Unavailable))
    else match FindNamed(e.containers, name)
      case None => (e0, Err(NotFound(name)))
      case Some(i) =>
        var c := e.containers[i];
        if !c.running then (e0, Err(Conflict(name)))
        else (e0.(containers := e.containers[i := c.(natRules := c.natRules + [cmd])]), Ok(()))
  }

  /** container.stop() */
  function DockerStop(e: Env, name: string): (Env, Result<(), DockerError>) {
    var e0 := e.(calls := e.calls + [Stop(name)]);
    if !e.dockerUp then (e0, Err(Unavailable))
    else match FindNamed(e.containers, name)
      case None => (e0, Err(NotFound(name)))
      case Some(i) =>
        (e0.(containers := e.containers[i := e.containers[i].(running := false)]), Ok(()))
  }

  /** container.remove(force=True) */
  function DockerRemove(e: Env, name: string): (Env, Result<(), DockerError>) {
    var e0 := e.(calls := e.calls + [RemoveForced(name)]);
    if !e.dockerUp then (e0, Err(Unavailable))
    else match FindNamed(e.containers, name)
      case None => (e0, Err(NotFound(name)))
      case Some(i) => (e0.(containers := e.containers[..i] + e.containers[i + 1..]), Ok(()))
  }
}
