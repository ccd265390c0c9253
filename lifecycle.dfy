/**
 * The router.py operations as functions from a host to the host afterwards and the outcome:
 * a status (what the operation would print) or the failure it raises. Each one first reads the
 * host and then either leaves the resources alone or makes one change.
 */
module Lifecycle {
  import opened Base
  import opened Text
  import opened Commands
  import opened Environment

  /** What an operation reports when it does not raise. */
  datatype Status = Created | AlreadyExists | Removed | Absent | AlreadyAttached | Enforced

  datatype Step = Step(env: Env, result: Result<Status, Failure>)

  /** call_popen(cmd): run the command and normalise what it returns. */
  function CallPopen(e: Env, cmd: seq<string>): (Env, Result<string, Failure>) {
    var (e1, p) := RunProcess(e, cmd);
    (e1, PopenResult(cmd, p.code, p.stdout))
  }

  /** ovs_vsctl(*args) */
  function OvsVsctl(e: Env, args: seq<string>): (Env, Result<string, Failure>) {
    CallPopen(e, VsctlCmd(args))
  }

  /** pipework(*args) */
  function RunPipeworkTool(e: Env, args: seq<string>): (Env, Result<string, Failure>) {
    CallPopen(e, PipeworkCmd(args))
  }

  /** create_bridge(name) */
  function CreateBridge(e: Env, name: string): Step {
    var b := BridgeName(name);
    var (e1, listed) := OvsVsctl(e, ["list-br"]);
    if listed.Err? then Step(e1, Err(listed.error))
    else if b in SplitLines(listed.value) then Step(e1, Ok(AlreadyExists))
    else
      var (e2, added) := OvsVsctl(e1, ["add-br", b]);
      if added.Err? then Step(e2, Err(added.error)) else Step(e2, Ok(Created))
  }

  /** delete_bridge(name) */
  function DeleteBridge(e: Env, name: string): Step {
    var b := BridgeName(name);
    var (e1, listed) := OvsVsctl(e, ["list-br"]);
    if listed.Err? then Step(e1, Err(listed.error))
    else if b !in SplitLines(listed.value) then Step(e1, Ok(Absent))
    else
      var (e2, deleted) := OvsVsctl(e1, ["del-br", b]);
      if deleted.Err? then Step(e2, Err(deleted.error)) else Step(e2, Ok(Removed))
  }

  /** run_router(name) */
  function RunRouter(e: Env, name: string): Step {
    var (e1, listed) := DockerList(e);
    if listed.Err? then Step(e1, Err(DockerFailed(listed.error)))
    else if HasNamed(listed.value, name) then Step(e1, Ok(AlreadyExists))
    else
      var (e2, ran) := DockerRun(e1, ContainerImage, name, true, KernelCaps);
      if ran.Err? then Step(e2, Err(DockerFailed(ran.error))) else Step(e2, Ok(Created))
  }

  /** stop_router(name): stop, then force-remove, the first container called `name`. */
  function StopRouter(e: Env, name: string): Step {
    var (e1, listed) := DockerList(e);
    if listed.Err? then Step(e1, Err(DockerFailed(listed.error)))
    else match FindNamed(listed.value, name)
      case None => Step(e1, Ok(Absent))
      case Some(i) =>
        var target := listed.value[i].name;
        var (e2, stopped) := DockerStop(e1, target);
        if stopped.Err? then Step(e2, Err(DockerFailed(stopped.error)))
        else
          var (e3, removed) := DockerRemove(e2, target);
          if removed.Err? then Step(e3, Err(DockerFailed(removed.error))) else Step(e3, Ok(Removed))
  }

  /** config_pipework(name) */
  function ConfigPipework(e: Env, name: string): Step {
    var b := BridgeName(name);
    var (e1, listed) := OvsVsctl(e, ["list-ports", b]);
    if listed.Err? then Step(e1, Err(listed.error))
    else if name in SplitLines(listed.value) then Step(e1, Ok(AlreadyAttached))
    else
      var (e2, attached) := RunPipeworkTool(e1, PipeworkArgs(name));
      if attached.Err? then Step(e2, Err(attached.error)) else Step(e2, Ok(Enforced))
  }

  /** config_nat(name): a missing container is reported, not raised; the rule is never checked for. */
  function ConfigNat(e: Env, name: string): Step {
    var (e1, got) := DockerGet(e, name);
    if got.Err? && got.error.NotFound? then Step(e1, Ok(Absent))
    else if got.Err? then Step(e1, Err(DockerFailed(got.error)))
    else
      var (e2, again) := DockerGet(e1, name);
      if again.Err? then Step(e2, Err(DockerFailed(again.error)))
      else
        var (e3, executed) := DockerExec(e2, again.value.name, NatCommand);
        if executed.Err? then Step(e3, Err(DockerFailed(executed.error))) else Step(e3, Ok(Enforced))
  }

  // ---------------------------------------------------------------------------------------------
  // Listings

  /** list-br returns the bridges, and the exact-line test on it is bridge membership. */
  lemma ListBridges(e: Env)
    requires Valid(e)
    ensures var (e1, r) := OvsVsctl(e, ["list-br"]);
      && e1 == e.(procs := e.procs + [VsctlCmd(["list-br"])])
      && (r.Err? <==> !e.ovsUp)
      && (r.Ok? ==> SplitLines(r.value) == e.bridges)
  {
    RunVsctl(e, ["list-br"]);
    ListingRoundTrip(e.bridges);
  }

  /** list-ports on an existing bridge returns its ports; on a missing bridge it raises. */
  lemma ListPorts(e: Env, b: string)
    requires Valid(e)
    ensures var (e1, r) := OvsVsctl(e, ["list-ports", b]);
      && e1 == e.(procs := e.procs + [VsctlCmd(["list-ports", b])])
      && (r.Err? <==> !e.ovsUp || b !in e.bridges)
      && (r.Ok? ==> SplitLines(r.value) == e.ports[b])
  {
    RunVsctl(e, ["list-ports", b]);
    if e.ovsUp && b in e.bridges {
      assert b in e.ports;
      ListingRoundTrip(e.ports[b]);
    }
  }

  /**
   * The exact-line test does not confuse names that extend one another: a listing that holds
   * only a longer name does not hold a shorter name it starts with, although the text contains it.
   */
  lemma ExtensionNotMatched(short: string, long: string)
    requires IsToken(long) && |short| < |long| && long[..|short|] == short
    ensures Strip(Lines([long])) == long && short !in SplitLines(Strip(Lines([long])))
  {
    assert [long][1..] == [];
    assert Lines([long]) == long + "\n";
    ListingRoundTrip([long]);
    var j := StripListing([long]);
  }

  /** For instance, a listing of bridge kbr-router-20 does not contain bridge kbr-router-2. */
  lemma ExactLineNotPrefix()
    ensures BridgeName("router-2") !in SplitLines(Strip(Lines([BridgeName("router-20")])))
  {
    var short, long := BridgeName("router-2"), BridgeName("router-20");
    assert IsToken(long);
    assert long[..|short|] == short;
    ExtensionNotMatched(short, long);
  }

  // ---------------------------------------------------------------------------------------------
  // Bridges

  /** `e` with `cmds` appended to its process log. */
  function Ran(e: Env, cmds: seq<seq<string>>): Env {
    e.(procs := e.procs + cmds)
  }

  lemma RanTwice(e: Env, c1: seq<string>, c2: seq<string>)
    ensures Ran(Ran(e, [c1]), [c2]) == Ran(e, [c1, c2])
  {
  }

  /** `e` with `cs` appended to its runtime-call log. */
  function Called(e: Env, cs: seq<ApiCall>): Env {
    e.(calls := e.calls + cs)
  }

  /** Neither service is started or stopped by the router code. */
  predicate SameFlags(e: Env, e': Env) {
    e'.ovsUp == e.ovsUp && e'.dockerUp == e.dockerUp
  }

  lemma AddBrKeepsValid(e: Env, b: string)
    requires Valid(e) && b !in e.bridges && IsToken(b)
    ensures Valid(e.(bridges := e.bridges + [b], ports := e.ports[b := []]))
  {
    var e' := e.(bridges := e.bridges + [b], ports := e.ports[b := []]);
    assert forall x :: x in e.ports ==> e'.ports[x] == (if x == b then [] else e.ports[x]);
  }

  lemma DelBrKeepsValid(e: Env, b: string)
    requires Valid(e) && b in e.bridges
    ensures Valid(e.(bridges := Without(e.bridges, b), ports := e.ports - {b}))
  {
    var e' := e.(bridges := Without(e.bridges, b), ports := e.ports - {b});
    assert forall x :: x in e'.ports ==> e'.ports[x] == e.ports[x];
  }

  /** add-br adds a new, well-formed bridge with no ports, and raises otherwise. */
  lemma AddBr(e: Env, b: string)
    requires Valid(e)
    ensures var (e1, r) := OvsVsctl(e, ["add-br", b]);
      && var logged := Ran(e, [VsctlCmd(["add-br", b])]);
      && (r.Err? <==> !e.ovsUp || b in e.bridges || !IsToken(b))
      && (r.Err? ==> e1 == logged && r.error == ExecutionFailed(VsctlCmd(["add-br", b])))
      && (r.Ok? ==> e1 == logged.(bridges := e.bridges + [b], ports := e.ports[b := []]))
  {
    RunVsctl(e, ["add-br", b]);
  }

  /** del-br removes an existing bridge together with its ports, and raises otherwise. */
  lemma DelBr(e: Env, b: string)
    requires Valid(e)
    ensures var (e1, r) := OvsVsctl(e, ["del-br", b]);
      && var logged := Ran(e, [VsctlCmd(["del-br", b])]);
      && (r.Err? <==> !e.ovsUp || b !in e.bridges)
      && (r.Err? ==> e1 == logged)
      && (r.Ok? ==> e1 == logged.(bridges := Without(e.bridges, b), ports := e.ports - {b}))
  {
    RunVsctl(e, ["del-br", b]);
  }

  /**
   * create_bridge when "kbr-<name>" is not listed: exactly one add-br is issued after the
   * listing, and it adds that bridge (without ports) unless the switch refuses the name.
   */
  lemma CreateBridgeNew(e: Env, name: string)
    requires Valid(e) && e.ovsUp && BridgeName(name) !in e.bridges
    ensures var b := BridgeName(name);
      var logged := Ran(e, [VsctlCmd(["list-br"]), VsctlCmd(["add-br", b])]);
      CreateBridge(e, name)
        == if IsToken(b) then Step(logged.(bridges := e.bridges + [b], ports := e.ports[b := []]), Ok(Created))
           else Step(logged, Err(ExecutionFailed(VsctlCmd(["add-br", b]))))
  {
    var b := BridgeName(name);
    ListBridges(e);
    var (e1, listed) := OvsVsctl(e, ["list-br"]);
    AddBr(e1, b);
    var (e2, added) := OvsVsctl(e1, ["add-br", b]);
    RanTwice(e, VsctlCmd(["list-br"]), VsctlCmd(["add-br", b]));
    assert CreateBridge(e, name) == Step(e2, if added.Err? then Err(added.error) else Ok(Created));
  }

  /**
   * create_bridge when "kbr-<name>" is already listed, or the switch does not answer: no add-br
   * is issued and no resource changes.
   */
  lemma CreateBridgeUnchanged(e: Env, name: string)
    requires Valid(e) && (!e.ovsUp || BridgeName(name) in e.bridges)
    ensures var s := CreateBridge(e, name);
      && s.env == Ran(e, [VsctlCmd(["list-br"])])
      && s.result == if e.ovsUp then Ok(AlreadyExists) else Err(ExecutionFailed(VsctlCmd(["list-br"])))
  {
    ListBridges(e);
    var (e1, listed) := OvsVsctl(e, ["list-br"]);
    if e.ovsUp {
      assert CreateBridge(e, name) == Step(e1, Ok(AlreadyExists));
    } else {
      assert CreateBridge(e, name) == Step(e1, Err(listed.error));
    }
  }

  /**
   * delete_bridge when "kbr-<name>" is listed: exactly one del-br is issued after the listing,
   * and it removes that bridge and its ports and nothing else.
   */
  lemma DeleteBridgeFound(e: Env, name: string)
    requires Valid(e) && e.ovsUp && BridgeName(name) in e.bridges
    ensures var b := BridgeName(name);
      DeleteBridge(e, name)
        == Step(Ran(e, [VsctlCmd(["list-br"]), VsctlCmd(["del-br", b])])
                  .(bridges := Without(e.bridges, b), ports := e.ports - {b}), Ok(Removed))
  {
    var b := BridgeName(name);
    ListBridges(e);
    var (e1, listed) := OvsVsctl(e, ["list-br"]);
    DelBr(e1, b);
    var (e2, deleted) := OvsVsctl(e1, ["del-br", b]);
    RanTwice(e, VsctlCmd(["list-br"]), VsctlCmd(["del-br", b]));
    assert DeleteBridge(e, name) == Step(e2, Ok(Removed));
  }

  /** delete_bridge when "kbr-<name>" is not listed, or the switch does not answer: nothing changes. */
  lemma DeleteBridgeNotFound(e: Env, name: string)
    requires Valid(e) && (!e.ovsUp || BridgeName(name) !in e.bridges)
    ensures var s := DeleteBridge(e, name);
      && s.env == Ran(e, [VsctlCmd(["list-br"])])
      && s.result == if e.ovsUp then Ok(Absent) else Err(ExecutionFailed(VsctlCmd(["list-br"])))
  {
    ListBridges(e);
    var (e1, listed) := OvsVsctl(e, ["list-br"]);
    if e.ovsUp {
      assert DeleteBridge(e, name) == Step(e1, Ok(Absent));
    } else {
      assert DeleteBridge(e, name) == Step(e1, Err(listed.error));
    }
  }

  /** create_bridge keeps the host well formed and touches neither the runtime nor the services. */
  lemma CreateBridgeKeepsValid(e: Env, name: string)
    requires Valid(e)
    ensures var s := CreateBridge(e, name);
      Valid(s.env) && SameFlags(e, s.env) && s.env.containers == e.containers && s.env.calls == e.calls
  {
    var b := BridgeName(name);
    if e.ovsUp && b !in e.bridges {
      CreateBridgeNew(e, name);
      if IsToken(b) {
        AddBrKeepsValid(Ran(e, [VsctlCmd(["list-br"]), VsctlCmd(["add-br", b])]), b);
      }
    } else {
      CreateBridgeUnchanged(e, name);
    }
  }

  /**
   * delete_bridge keeps the host well formed and touches neither the runtime nor the services; it
   * succeeds exactly when the switch answers, and then the bridge is gone.
   */
  lemma DeleteBridgeKeepsValid(e: Env, name: string)
    requires Valid(e)
    ensures var s := DeleteBridge(e, name);
      && Valid(s.env) && SameFlags(e, s.env) && s.env.containers == e.containers && s.env.calls == e.calls
      && (s.result.Ok? <==> e.ovsUp)
      && (s.result.Ok? ==> BridgeName(name) !in s.env.bridges)
  {
    var b := BridgeName(name);
    if e.ovsUp && b in e.bridges {
      DeleteBridgeFound(e, name);
      DelBrKeepsValid(Ran(e, [VsctlCmd(["list-br"]), VsctlCmd(["del-br", b])]), b);
    } else {
      DeleteBridgeNotFound(e, name);
    }
  }

  /** A name that occurs in a sequence without repetitions occurs exactly once. */
  lemma {:induction false} DistinctOnce(s: seq<string>, x: string)
    requires Distinct(s) && x in s
    ensures multiset(s)[x] == 1
  {
    assert s == [s[0]] + s[1..];
    if s[0] == x {
      assert x !in s[1..];
    } else {
      DistinctOnce(s[1..], x);
    }
  }

  /**
   * create_bridge twice leaves exactly one bridge "kbr-<name>": the second call reports that it
   * already exists and issues nothing but the listing.
   */
  lemma CreateBridgeTwice(e: Env, name: string)
    requires Valid(e)
    requires CreateBridge(e, name).result.Ok?
    ensures var s1 := CreateBridge(e, name); var s2 := CreateBridge(s1.env, name);
      && s2.result == Ok(AlreadyExists) && SameResources(s1.env, s2.env)
      && s2.env.procs == s1.env.procs + [VsctlCmd(["list-br"])]
      && multiset(s2.env.bridges)[BridgeName(name)] == 1
  {
    var b := BridgeName(name);
    var s1 := CreateBridge(e, name);
    CreateBridgeKeepsValid(e, name);
    if e.ovsUp && b !in e.bridges {
      CreateBridgeNew(e, name);
    } else {
      CreateBridgeUnchanged(e, name);
    }
    CreateBridgeUnchanged(s1.env, name);
    DistinctOnce(s1.env.bridges, b);
  }

  /** delete_bridge twice: the second call finds nothing and changes nothing. */
  lemma DeleteBridgeTwice(e: Env, name: string)
    requires Valid(e)
    requires DeleteBridge(e, name).result.Ok?
    ensures var s1 := DeleteBridge(e, name); var s2 := DeleteBridge(s1.env, name);
      && s2.result == Ok(Absent) && SameResources(s1.env, s2.env)
      && s2.env.procs == s1.env.procs + [VsctlCmd(["list-br"])]
  {
    var b := BridgeName(name);
    var s1 := DeleteBridge(e, name);
    if b in e.bridges {
      DeleteBridgeFound(e, name);
      DelBrKeepsValid(Ran(e, [VsctlCmd(["list-br"]), VsctlCmd(["del-br", b])]), b);
    } else {
      DeleteBridgeNotFound(e, name);
    }
    assert Valid(s1.env) && s1.env.ovsUp && b !in s1.env.bridges;
    DeleteBridgeNotFound(s1.env, name);
  }

  // ---------------------------------------------------------------------------------------------
  // Containers

  /** The container run_router starts: the router image, privileged, with exactly two capabilities. */
  function RouterContainer(name: string): Container {
    Container(name, ContainerImage, true, KernelCaps, true, [])
  }

  lemma {:induction false} FindNamedSameNames(cs: seq<Container>, cs': seq<Container>, name: string)
    requires |cs| == |cs'| && forall i :: 0 <= i < |cs| ==> cs[i].name == cs'[i].name
    ensures FindNamed(cs, name) == FindNamed(cs', name)
  {
    if cs != [] {
      FindNamedSameNames(cs[1..], cs'[1..], name);
    }
  }

  lemma FindNamedUnique(cs: seq<Container>, i: nat)
    requires UniqueNames(cs) && i < |cs|
    ensures FindNamed(cs, cs[i].name) == Some(i)
  {
  }

  /** Changing a container other than by name keeps every lookup by name. */
  lemma UpdateKeepsNames(cs: seq<Container>, i: nat, c: Container)
    requires i < |cs| && c.name == cs[i].name
    ensures forall n :: FindNamed(cs[i := c], n) == FindNamed(cs, n)
    ensures UniqueNames(cs) ==> UniqueNames(cs[i := c])
  {
    forall n ensures FindNamed(cs[i := c], n) == FindNamed(cs, n) {
      FindNamedSameNames(cs[i := c], cs, n);
    }
  }

  lemma RemoveKeepsUnique(cs: seq<Container>, i: nat)
    requires UniqueNames(cs) && i < |cs|
    ensures UniqueNames(cs[..i] + cs[i + 1..])
  {
    var r := cs[..i] + cs[i + 1..];
    forall j, k | 0 <= j < k < |r| ensures r[j].name != r[k].name {
      var j', k' := if j < i then j else j + 1, if k < i then k else k + 1;
      assert r[j] == cs[j'] && r[k] == cs[k'];
    }
  }

  /**
   * run_router when no container, running or stopped, is called `name`: exactly one container is
   * started, named `name`, from the router image, privileged, with capabilities NET_ADMIN and NET_RAW.
   */
  lemma RunRouterNew(e: Env, name: string)
    requires e.dockerUp && !HasNamed(e.containers, name)
    ensures RunRouter(e, name)
         == Step(Called(e, [ListAll, RunDetached(ContainerImage, name, true, KernelCaps)])
                   .(containers := e.containers + [RouterContainer(name)]), Ok(Created))
  {
    var (e1, listed) := DockerList(e);
    assert e1.calls + [RunDetached(ContainerImage, name, true, KernelCaps)]
        == e.calls + [ListAll, RunDetached(ContainerImage, name, true, KernelCaps)];
  }

  /** run_router when a container called `name` exists, or the runtime does not answer: nothing is started. */
  lemma RunRouterUnchanged(e: Env, name: string)
    requires !e.dockerUp || HasNamed(e.containers, name)
    ensures RunRouter(e, name)
         == Step(Called(e, [ListAll]), if e.dockerUp then Ok(AlreadyExists) else Err(DockerFailed(Unavailable)))
  {
  }

  /**
   * stop_router when container `name` exists: it is stopped and then force-removed, and every
   * other container stays as it was, in the same order.
   */
  lemma StopRouterFound(e: Env, name: string, i: nat)
    requires e.dockerUp && FindNamed(e.containers, name) == Some(i)
    ensures StopRouter(e, name)
         == Step(Called(e, [ListAll, Stop(name), RemoveForced(name)])
                   .(containers := e.containers[..i] + e.containers[i + 1..]), Ok(Removed))
  {
    StopKeepsPosition(e.containers, name, i);
    CalledThree(e, ListAll, Stop(name), RemoveForced(name));
  }

  /** Stopping container `i` leaves it where it is, so removing it afterwards removes the original. */
  lemma StopKeepsPosition(cs: seq<Container>, name: string, i: nat)
    requires FindNamed(cs, name) == Some(i)
    ensures var stopped := cs[i := cs[i].(running := false)];
      FindNamed(stopped, name) == Some(i) && stopped[..i] + stopped[i + 1..] == cs[..i] + cs[i + 1..]
  {
    var stopped := cs[i := cs[i].(running := false)];
    UpdateKeepsNames(cs, i, cs[i].(running := false));
    assert stopped[..i] == cs[..i];
    assert stopped[i + 1..] == cs[i + 1..];
  }

  lemma CalledThree(e: Env, a: ApiCall, b: ApiCall, c: ApiCall)
    ensures Called(Called(Called(e, [a]), [b]), [c]) == Called(e, [a, b, c])
  {
  }

  /** stop_router when no container is called `name`, or the runtime does not answer: nothing changes. */
  lemma StopRouterNotFound(e: Env, name: string)
    requires !e.dockerUp || !HasNamed(e.containers, name)
    ensures StopRouter(e, name)
         == Step(Called(e, [ListAll]), if e.dockerUp then Ok(Absent) else Err(DockerFailed(Unavailable)))
  {
  }

  /** The NAT rule recorded in container `i`. */
  function WithNatRule(cs: seq<Container>, i: nat): seq<Container>
    requires i < |cs|
  {
    cs[i := cs[i].(natRules := cs[i].natRules + [NatCommand])]
  }

  /**
   * config_nat on a running container `name`: one more masquerade rule on the primary interface
   * is appended to it, whatever rules it already holds; nothing else changes.
   */
  lemma ConfigNatRunning(e: Env, name: string, i: nat)
    requires e.dockerUp && FindNamed(e.containers, name) == Some(i) && e.containers[i].running
    ensures ConfigNat(e, name)
         == Step(Called(e, [Get(name), Get(name), ExecDetached(name, NatCommand)])
                   .(containers := WithNatRule(e.containers, i)), Ok(Enforced))
  {
    assert e.calls + [Get(name)] + [Get(name)] + [ExecDetached(name, NatCommand)]
        == e.calls + [Get(name), Get(name), ExecDetached(name, NatCommand)];
  }

  /**
   * config_nat otherwise: a missing container is reported and not raised; a stopped one makes
   * the exec call fail; an unreachable runtime makes the lookup fail. No resource changes.
   */
  lemma ConfigNatUnchanged(e: Env, name: string)
    requires !e.dockerUp || !IsRunning(e.containers, name)
    ensures var s := ConfigNat(e, name);
      && SameResources(e, s.env) && s.env.procs == e.procs
      && (!e.dockerUp ==> s.result == Err(DockerFailed(Unavailable)) && s.env == Called(e, [Get(name)]))
      && (e.dockerUp && !HasNamed(e.containers, name) ==> s.result == Ok(Absent) && s.env == Called(e, [Get(name)]))
      && (e.dockerUp && HasNamed(e.containers, name) ==>
            s.result == Err(DockerFailed(Conflict(name)))
            && s.env == Called(e, [Get(name), Get(name), ExecDetached(name, NatCommand)]))
  {
    if e.dockerUp && HasNamed(e.containers, name) {
      assert e.calls + [Get(name)] + [Get(name)] + [ExecDetached(name, NatCommand)]
          == e.calls + [Get(name), Get(name), ExecDetached(name, NatCommand)];
    }
  }

  /** run_router keeps container names unique and touches neither the switch nor the process log. */
  lemma RunRouterKeepsValid(e: Env, name: string)
    requires Valid(e)
    ensures var s := RunRouter(e, name);
      && Valid(s.env) && SameFlags(e, s.env)
      && s.env.bridges == e.bridges && s.env.ports == e.ports && s.env.procs == e.procs
  {
    var cs := e.containers;
    if e.dockerUp && !HasNamed(cs, name) {
      RunRouterNew(e, name);
      var cs' := cs + [RouterContainer(name)];
      forall j, k | 0 <= j < k < |cs'| ensures cs'[j].name != cs'[k].name {
        if k == |cs| {
          assert cs[j].name != name;
        }
      }
    } else {
      RunRouterUnchanged(e, name);
    }
  }

  /** stop_router keeps container names unique and touches neither the switch nor the process log. */
  lemma StopRouterKeepsValid(e: Env, name: string)
    requires Valid(e)
    ensures var s := StopRouter(e, name);
      && Valid(s.env) && SameFlags(e, s.env)
      && s.env.bridges == e.bridges && s.env.ports == e.ports && s.env.procs == e.procs
  {
    match FindNamed(e.containers, name)
    case None =>
      StopRouterNotFound(e, name);
    case Some(i) =>
      if e.dockerUp {
        StopRouterFound(e, name, i);
        RemoveKeepsUnique(e.containers, i);
      } else {
        StopRouterNotFound(e, name);
      }
  }

  /** config_nat keeps container names unique and touches neither the switch nor the process log. */
  lemma ConfigNatKeepsValid(e: Env, name: string)
    requires Valid(e)
    ensures var s := ConfigNat(e, name);
      && Valid(s.env) && SameFlags(e, s.env)
      && s.env.bridges == e.bridges && s.env.ports == e.ports && s.env.procs == e.procs
  {
    var cs := e.containers;
    match FindNamed(cs, name)
    case None =>
      ConfigNatUnchanged(e, name);
    case Some(i) =>
      if e.dockerUp && cs[i].running {
        ConfigNatRunning(e, name, i);
        UpdateKeepsNames(cs, i, cs[i].(natRules := cs[i].natRules + [NatCommand]));
      } else {
        ConfigNatUnchanged(e, name);
      }
  }

  /** `k` copies of `x`. */
  function Copies(x: string, k: nat): (r: seq<string>)
    ensures |r| == k && forall j :: 0 <= j < k ==> r[j] == x
  {
    if k == 0 then [] else Copies(x, k - 1) + [x]
  }

  /** config_nat applied `k` times in a row. */
  function NatTimes(e: Env, name: string, k: nat): Env {
    if k == 0 then e else ConfigNat(NatTimes(e, name, k - 1), name).env
  }

  /**
   * config_nat is not idempotent: on a running container, `k` calls leave `k` more copies of the
   * masquerade rule, and change nothing else about the container.
   */
  lemma {:induction false} NatRulesAccumulate(e: Env, name: string, i: nat, k: nat)
    requires e.dockerUp && FindNamed(e.containers, name) == Some(i) && e.containers[i].running
    ensures var h := NatTimes(e, name, k);
      && |h.containers| == |e.containers| && FindNamed(h.containers, name) == Some(i)
      && h.containers[i] == e.containers[i].(natRules := e.containers[i].natRules + Copies(NatCommand, k))
      && (forall j :: 0 <= j < |h.containers| && j != i ==> h.containers[j] == e.containers[j])
      && h.dockerUp && h.bridges == e.bridges && h.ports == e.ports
  {
    if k > 0 {
      NatRulesAccumulate(e, name, i, k - 1);
      var prev := NatTimes(e, name, k - 1);
      NatStep(prev, name, i);
      NatCombine(e, prev, ConfigNat(prev, name).env, name, i, k);
    } else {
      assert e.containers[i].natRules + Copies(NatCommand, 0) == e.containers[i].natRules;
    }
  }

  /** `k - 1` rules so far and one more make `k`. */
  lemma NatCombine(e: Env, prev: Env, h: Env, name: string, i: nat, k: nat)
    requires k > 0 && i < |e.containers|
    requires && |prev.containers| == |e.containers| && FindNamed(prev.containers, name) == Some(i)
      && prev.containers[i] == e.containers[i].(natRules := e.containers[i].natRules + Copies(NatCommand, k - 1))
      && (forall j :: 0 <= j < |prev.containers| && j != i ==> prev.containers[j] == e.containers[j])
      && prev.dockerUp && prev.bridges == e.bridges && prev.ports == e.ports
    requires var c := prev.containers[i];
      && |h.containers| == |prev.containers|
      && h.containers[i] == c.(natRules := c.natRules + [NatCommand])
      && (forall j :: 0 <= j < |h.containers| && j != i ==> h.containers[j] == prev.containers[j])
      && FindNamed(h.containers, name) == Some(i)
      && h.dockerUp && h.bridges == prev.bridges && h.ports == prev.ports
    ensures && |h.containers| == |e.containers| && FindNamed(h.containers, name) == Some(i)
      && h.containers[i] == e.containers[i].(natRules := e.containers[i].natRules + Copies(NatCommand, k))
      && (forall j :: 0 <= j < |h.containers| && j != i ==> h.containers[j] == e.containers[j])
      && h.dockerUp && h.bridges == e.bridges && h.ports == e.ports
  {
    CopiesStep(e.containers[i].natRules, k);
  }

  /** One config_nat on a running container, field by field. */
  lemma NatStep(e: Env, name: string, i: nat)
    requires e.dockerUp && FindNamed(e.containers, name) == Some(i) && e.containers[i].running
    ensures var h := ConfigNat(e, name).env; var c := e.containers[i];
      && |h.containers| == |e.containers|
      && h.containers[i] == c.(natRules := c.natRules + [NatCommand])
      && (forall j :: 0 <= j < |h.containers| && j != i ==> h.containers[j] == e.containers[j])
      && FindNamed(h.containers, name) == Some(i)
      && h.dockerUp && h.bridges == e.bridges && h.ports == e.ports
  {
    ConfigNatRunning(e, name, i);
    var c := e.containers[i];
    UpdateKeepsNames(e.containers, i, c.(natRules := c.natRules + [NatCommand]));
  }

  lemma CopiesStep(rules: seq<string>, k: nat)
    requires k > 0
    ensures rules + Copies(NatCommand, k - 1) + [NatCommand] == rules + Copies(NatCommand, k)
  {
  }

  // ---------------------------------------------------------------------------------------------
  // Interface attachment

  /** Whether pipework can attach port `name` for container `name` to an existing bridge. */
  predicate CanAttach(e: Env, name: string)
    requires BridgeName(name) in e.ports
  {
    e.ovsUp && e.dockerUp && IsRunning(e.containers, name) && IsToken(name)
    && name !in e.ports[BridgeName(name)]
  }

  /** config_pipework on a missing bridge, or with the switch down: listing the ports raises, pipework is never run. */
  lemma ConfigPipeworkNoBridge(e: Env, name: string)
    requires Valid(e) && (!e.ovsUp || BridgeName(name) !in e.bridges)
    ensures ConfigPipework(e, name)
         == Step(Ran(e, [VsctlCmd(["list-ports", BridgeName(name)])]),
                 Err(ExecutionFailed(VsctlCmd(["list-ports", BridgeName(name)]))))
  {
    ListPorts(e, BridgeName(name));
  }

  /** config_pipework when port `name` is already on the bridge: pipework is not run. */
  lemma ConfigPipeworkAttached(e: Env, name: string)
    requires Valid(e) && e.ovsUp && BridgeName(name) in e.bridges && name in e.ports[BridgeName(name)]
    ensures ConfigPipework(e, name)
         == Step(Ran(e, [VsctlCmd(["list-ports", BridgeName(name)])]), Ok(AlreadyAttached))
  {
    ListPorts(e, BridgeName(name));
  }

  /**
   * config_pipework when port `name` is not on the bridge: pipework is run exactly once with
   * the bridge, the secondary interface, `name` as port and container, the floating address and
   * the peer MAC; when it succeeds the bridge has the one new port `name`.
   */
  lemma ConfigPipeworkNew(e: Env, name: string)
    requires Valid(e) && e.ovsUp && BridgeName(name) in e.bridges && name !in e.ports[BridgeName(name)]
    ensures var b := BridgeName(name);
      var logged := Ran(e, [VsctlCmd(["list-ports", b]), PipeworkCmd(PipeworkArgs(name))]);
      ConfigPipework(e, name)
        == if CanAttach(e, name) then Step(logged.(ports := e.ports[b := e.ports[b] + [name]]), Ok(Enforced))
           else Step(logged, Err(ExecutionFailed(PipeworkCmd(PipeworkArgs(name)))))
  {
    var b := BridgeName(name);
    ListPorts(e, b);
    var (e1, listed) := OvsVsctl(e, ["list-ports", b]);
    assert name !in SplitLines(listed.value);
    AttachRun(e1, name);
    assert CanAttach(e1, name) == CanAttach(e, name);
    RanTwice(e, VsctlCmd(["list-ports", b]), PipeworkCmd(PipeworkArgs(name)));
  }

  /** One pipework run for router `name`: it attaches the port exactly when CanAttach holds. */
  lemma AttachRun(e: Env, name: string)
    requires BridgeName(name) in e.ports
    ensures var b, cmd := BridgeName(name), PipeworkCmd(PipeworkArgs(name));
      var (e1, r) := RunPipeworkTool(e, PipeworkArgs(name));
      && e1 == (if CanAttach(e, name) then Ran(e, [cmd]).(ports := e.ports[b := e.ports[b] + [name]])
                else Ran(e, [cmd]))
      && (r.Err? <==> !CanAttach(e, name))
      && (r.Err? ==> r.error == ExecutionFailed(cmd))
  {
    RunPipework(e, PipeworkArgs(name));
  }

  /** config_pipework keeps the host well formed and never touches containers or bridges. */
  lemma ConfigPipeworkKeepsValid(e: Env, name: string)
    requires Valid(e)
    ensures var s := ConfigPipework(e, name);
      && Valid(s.env) && s.env.bridges == e.bridges && s.env.containers == e.containers && s.env.calls == e.calls
      && SameFlags(e, s.env)
  {
    var b := BridgeName(name);
    if !e.ovsUp || b !in e.bridges {
      ConfigPipeworkNoBridge(e, name);
    } else if name in e.ports[b] {
      ConfigPipeworkAttached(e, name);
    } else {
      ConfigPipeworkNew(e, name);
      var logged := Ran(e, [VsctlCmd(["list-ports", b]), PipeworkCmd(PipeworkArgs(name))]);
      if CanAttach(e, name) {
        AttachKeepsValid(logged, b, name);
      }
    }
  }

  lemma AttachKeepsValid(e: Env, b: string, p: string)
    requires Valid(e) && b in e.ports && IsToken(p) && p !in e.ports[b]
    ensures Valid(e.(ports := e.ports[b := e.ports[b] + [p]]))
  {
  }

  // ---------------------------------------------------------------------------------------------
  // What a successful step leaves behind

  lemma {:induction false} FindNamedAppend(cs: seq<Container>, c: Container)
    requires !HasNamed(cs, c.name)
    ensures FindNamed(cs + [c], c.name) == Some(|cs|)
  {
    if cs != [] {
      assert (cs + [c])[1..] == cs[1..] + [c];
      FindNamedAppend(cs[1..], c);
    }
  }

  /** Removing the container called `n` from a list with unique names leaves none called `n`. */
  lemma RemovedNameGone(cs: seq<Container>, i: nat)
    requires UniqueNames(cs) && i < |cs|
    ensures !HasNamed(cs[..i] + cs[i + 1..], cs[i].name)
  {
    var r := cs[..i] + cs[i + 1..];
    forall j | 0 <= j < |r| ensures r[j].name != cs[i].name {
      if j < i {
        assert r[j] == cs[j];
      } else {
        assert r[j] == cs[j + 1];
      }
    }
  }

  /** A successful create_bridge means the switch answered and "kbr-<name>" is now a bridge. */
  lemma CreateBridgeOk(e: Env, name: string)
    requires Valid(e) && CreateBridge(e, name).result.Ok?
    ensures var s := CreateBridge(e, name);
      && e.ovsUp && BridgeName(name) in s.env.bridges
      && (BridgeName(name) in e.bridges ==> s.env.bridges == e.bridges && s.env.ports == e.ports)
      && s.env.containers == e.containers && s.env.calls == e.calls
  {
    if e.ovsUp && BridgeName(name) !in e.bridges {
      CreateBridgeNew(e, name);
    } else {
      CreateBridgeUnchanged(e, name);
    }
  }

  /** A successful run_router means a container called `name` now exists. */
  lemma RunRouterOk(e: Env, name: string)
    requires RunRouter(e, name).result.Ok?
    ensures var s := RunRouter(e, name);
      && e.dockerUp && HasNamed(s.env.containers, name)
      && (HasNamed(e.containers, name) ==> s.env.containers == e.containers)
  {
    if e.dockerUp && !HasNamed(e.containers, name) {
      RunRouterNew(e, name);
      FindNamedAppend(e.containers, RouterContainer(name));
    } else {
      RunRouterUnchanged(e, name);
    }
  }

  /**
   * run_router twice leaves exactly one container called `name`: the second call reports that it
   * already exists and makes no request but the listing.
   */
  lemma RunRouterTwice(e: Env, name: string)
    requires Valid(e) && RunRouter(e, name).result.Ok?
    ensures var s1 := RunRouter(e, name); var s2 := RunRouter(s1.env, name);
      && s2 == Step(Called(s1.env, [ListAll]), Ok(AlreadyExists))
      && HasNamed(s2.env.containers, name) && UniqueNames(s2.env.containers)
  {
    var s1 := RunRouter(e, name);
    RunRouterOk(e, name);
    RunRouterKeepsValid(e, name);
    RunRouterUnchanged(s1.env, name);
  }

  /** stop_router twice: the second call finds no container called `name` and only lists. */
  lemma StopRouterTwice(e: Env, name: string)
    requires Valid(e) && StopRouter(e, name).result.Ok?
    ensures var s1 := StopRouter(e, name);
      StopRouter(s1.env, name) == Step(Called(s1.env, [ListAll]), Ok(Absent))
  {
    match FindNamed(e.containers, name)
    case None =>
      StopRouterNotFound(e, name);
      StopRouterNotFound(StopRouter(e, name).env, name);
    case Some(i) =>
      StopRouterFound(e, name, i);
      RemovedNameGone(e.containers, i);
      StopRouterNotFound(StopRouter(e, name).env, name);
  }

  /** A successful config_pipework means port `name` is on bridge "kbr-<name>". */
  lemma ConfigPipeworkOk(e: Env, name: string)
    requires Valid(e) && ConfigPipework(e, name).result.Ok?
    ensures var s := ConfigPipework(e, name); var b := BridgeName(name);
      && e.ovsUp && b in e.bridges && b in s.env.ports && name in s.env.ports[b]
      && (name in e.ports[b] ==> s.env.ports == e.ports)
  {
    var b := BridgeName(name);
    if !e.ovsUp || b !in e.bridges {
      ConfigPipeworkNoBridge(e, name);
    } else if name in e.ports[b] {
      ConfigPipeworkAttached(e, name);
    } else {
      ConfigPipeworkNew(e, name);
    }
  }

  /** config_pipework twice: the second call finds the port attached and runs no pipework. */
  lemma ConfigPipeworkTwice(e: Env, name: string)
    requires Valid(e) && ConfigPipework(e, name).result.Ok?
    ensures var s1 := ConfigPipework(e, name);
      ConfigPipework(s1.env, name)
        == Step(Ran(s1.env, [VsctlCmd(["list-ports", BridgeName(name)])]), Ok(AlreadyAttached))
  {
    ConfigPipeworkOk(e, name);
    ConfigPipeworkKeepsValid(e, name);
    ConfigPipeworkAttached(ConfigPipework(e, name).env, name);
  }

  /** A successful config_nat on an existing container means that container is running. */
  lemma ConfigNatOk(e: Env, name: string)
    requires e.dockerUp && HasNamed(e.containers, name) && ConfigNat(e, name).result.Ok?
    ensures IsRunning(ConfigNat(e, name).env.containers, name)
  {
    var i := FindNamed(e.containers, name).value;
    if e.containers[i].running {
      ConfigNatRunning(e, name, i);
      UpdateKeepsNames(e.containers, i, e.containers[i].(natRules := e.containers[i].natRules + [NatCommand]));
    } else {
      ConfigNatUnchanged(e, name);
    }
  }
}
