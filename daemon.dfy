/**
 * daemon.py: the authenticated REST route /api/v1/router/<name>. POST provisions a router in
 * four steps, DELETE tears it down in two. A failing step raises through the handler, so the
 * steps after it do not run and the ones before it are not undone.
 */
module Daemon {
  import opened Base
  import opened Text
  import opened Commands
  import opened Environment
  import L = Lifecycle
  import Router

  datatype Verb = Post | Delete

  /** POST: create_bridge, run_router, config_pipework, config_nat, then "create <name>". */
  function PostSpec(e: Env, name: string): (Env, Result<string, Failure>) {
    var s1 := L.CreateBridge(e, name);
    if s1.result.Err? then (s1.env, Err(s1.result.error))
    else
      var s2 := L.RunRouter(s1.env, name);
      if s2.result.Err? then (s2.env, Err(s2.result.error))
      else
        var s3 := L.ConfigPipework(s2.env, name);
        if s3.result.Err? then (s3.env, Err(s3.result.error))
        else
          var s4 := L.ConfigNat(s3.env, name);
          if s4.result.Err? then (s4.env, Err(s4.result.error))
          else (s4.env, Ok("create " + name))
  }

  /** DELETE: delete_bridge, stop_router, then "delete <name>". */
  function DeleteSpec(e: Env, name: string): (Env, Result<string, Failure>) {
    var s1 := L.DeleteBridge(e, name);
    if s1.result.Err? then (s1.env, Err(s1.result.error))
    else
      var s2 := L.StopRouter(s1.env, name);
      if s2.result.Err? then (s2.env, Err(s2.result.error))
      else (s2.env, Ok("delete " + name))
  }

  function Route(e: Env, verb: Verb, name: string): (Env, Result<string, Failure>) {
    match verb
    case Post => PostSpec(e, name)
    case Delete => DeleteSpec(e, name)
  }

  /** create(name): the route body, run against the shared host. */
  method Create(h: Router.Host, verb: Verb, name: string) returns (r: Result<string, Failure>)
    modifies h
    ensures (h.State(), r) == Route(old(h.State()), verb, name)
  {
    if verb == Post {
      var bridge := Router.CreateBridge(h, name);
      if bridge.Err? {
        return Err(bridge.error);
      }
      var router := Router.RunRouter(h, name);
      if router.Err? {
        return Err(router.error);
      }
      var attached := Router.ConfigPipework(h, name);
      if attached.Err? {
        return Err(attached.error);
      }
      var masquerade := Router.ConfigNat(h, name);
      if masquerade.Err? {
        return Err(masquerade.error);
      }
      return Ok("create " + name);
    } else {
      var bridge := Router.DeleteBridge(h, name);
      if bridge.Err? {
        return Err(bridge.error);
      }
      var router := Router.StopRouter(h, name);
      if router.Err? {
        return Err(router.error);
      }
      return Ok("delete " + name);
    }
  }

  // ---------------------------------------------------------------------------------------------
  // Authentication

  /** The one configured account: user "onos" with the stored password hash. */
  function Users(storedHash: string): map<string, string> {
    map["onos" := storedHash]
  }

  /**
   * verify_password(username, password): the user name when it is a configured account and the
   * password matches its stored hash under `checkHash`, nothing otherwise.
   */
  function VerifyPassword(users: map<string, string>, checkHash: (string, string) -> bool,
                          username: string, password: string): (r: Option<string>)
    ensures r.Some? ==> r.value == username
  {
    if username in users && checkHash(users[username], password) then Some(username) else None
  }

  /** Only user "onos" is ever admitted, and only when the hash check accepts the password. */
  lemma OnlyConfiguredUser(storedHash: string, checkHash: (string, string) -> bool,
                           username: string, password: string)
    ensures VerifyPassword(Users(storedHash), checkHash, username, password).Some?
        <==> username == "onos" && checkHash(storedHash, password)
  {
  }

  datatype Response = Unauthorized | Text(body: string) | ServerError(failure: Failure)

  /** A request through the login_required guard: the route body runs only for an admitted user. */
  function Handle(e: Env, users: map<string, string>, checkHash: (string, string) -> bool,
                  username: string, password: string, verb: Verb, name: string): (Env, Response)
  {
    if VerifyPassword(users, checkHash, username, password).None? then (e, Unauthorized)
    else
      var (e1, r) := Route(e, verb, name);
      (e1, if r.Ok? then Text(r.value) else ServerError(r.error))
  }

  method Serve(h: Router.Host, users: map<string, string>, checkHash: (string, string) -> bool,
               username: string, password: string, verb: Verb, name: string)
    returns (resp: Response)
    modifies h
    ensures (h.State(), resp) == Handle(old(h.State()), users, checkHash, username, password, verb, name)
  {
    var user := VerifyPassword(users, checkHash, username, password);
    if user.None? {
      return Unauthorized;
    }
    var r := Create(h, verb, name);
    if r.Err? {
      return ServerError(r.error);
    }
    return Text(r.value);
  }

  /** A request that fails authentication touches nothing: no command, no runtime call. */
  lemma RejectedTouchesNothing(e: Env, storedHash: string, checkHash: (string, string) -> bool,
                               username: string, password: string, verb: Verb, name: string)
    requires username != "onos" || !checkHash(storedHash, password)
    ensures Handle(e, Users(storedHash), checkHash, username, password, verb, name) == (e, Unauthorized)
  {
    OnlyConfiguredUser(storedHash, checkHash, username, password);
  }

  // ---------------------------------------------------------------------------------------------
  // POST

  /** A router is fully provisioned: its bridge, the port on it, and its container running. */
  predicate Provisioned(e: Env, name: string) {
    var b := BridgeName(name);
    && e.ovsUp && e.dockerUp && b in e.bridges && b in e.ports && name in e.ports[b]
    && IsRunning(e.containers, name)
  }

  /**
   * POST on a clean host: one bridge, one port on it, one privileged router container holding one
   * masquerade rule, and exactly these commands and runtime calls, in this order.
   */
  lemma PostFresh(e: Env, name: string)
    requires Valid(e) && e.ovsUp && e.dockerUp && IsToken(name)
    requires BridgeName(name) !in e.bridges && !HasNamed(e.containers, name)
    ensures var b := BridgeName(name);
      PostSpec(e, name)
        == (e.(bridges := e.bridges + [b],
               ports := e.ports[b := [name]],
               containers := e.containers + [L.RouterContainer(name).(natRules := [NatCommand])],
               procs := e.procs + [VsctlCmd(["list-br"]), VsctlCmd(["add-br", b]),
                                   VsctlCmd(["list-ports", b]), PipeworkCmd(PipeworkArgs(name))],
               calls := e.calls + [ListAll, RunDetached(ContainerImage, name, true, KernelCaps),
                                   Get(name), Get(name), ExecDetached(name, NatCommand)]),
            Ok("create " + name))
  {
    var e1, e2, e3, e4 := PostFreshSteps(e, name);
    PostOf(e, name, e1, e2, e3, e4);
    FreshEnv(e, name, e1, e2, e3, e4);
  }

  /** The host after a fresh POST, assembled from its four steps. */
  lemma FreshEnv(e: Env, name: string, e1: Env, e2: Env, e3: Env, e4: Env)
    requires var b := BridgeName(name); var rc := L.RouterContainer(name);
      && e1 == L.Ran(e, [VsctlCmd(["list-br"]), VsctlCmd(["add-br", b])])
                 .(bridges := e.bridges + [b], ports := e.ports[b := []])
      && e2 == L.Called(e1, [ListAll, RunDetached(ContainerImage, name, true, KernelCaps)])
                 .(containers := e.containers + [rc])
      && e3 == L.Ran(e2, [VsctlCmd(["list-ports", b]), PipeworkCmd(PipeworkArgs(name))])
                 .(ports := e.ports[b := [name]])
      && e4 == L.Called(e3, [Get(name), Get(name), ExecDetached(name, NatCommand)])
                 .(containers := e.containers + [rc.(natRules := [NatCommand])])
    ensures var b := BridgeName(name);
      e4 == e.(bridges := e.bridges + [b],
               ports := e.ports[b := [name]],
               containers := e.containers + [L.RouterContainer(name).(natRules := [NatCommand])],
               procs := e.procs + [VsctlCmd(["list-br"]), VsctlCmd(["add-br", b]),
                                   VsctlCmd(["list-ports", b]), PipeworkCmd(PipeworkArgs(name))],
               calls := e.calls + [ListAll, RunDetached(ContainerImage, name, true, KernelCaps),
                                   Get(name), Get(name), ExecDetached(name, NatCommand)])
  {
  }

  /** The four steps of POST on a clean host, one host after another. */
  lemma PostFreshSteps(e: Env, name: string) returns (e1: Env, e2: Env, e3: Env, e4: Env)
    requires Valid(e) && e.ovsUp && e.dockerUp && IsToken(name)
    requires BridgeName(name) !in e.bridges && !HasNamed(e.containers, name)
    ensures var b := BridgeName(name); var rc := L.RouterContainer(name);
      && e1 == L.Ran(e, [VsctlCmd(["list-br"]), VsctlCmd(["add-br", b])])
                 .(bridges := e.bridges + [b], ports := e.ports[b := []])
      && e2 == L.Called(e1, [ListAll, RunDetached(ContainerImage, name, true, KernelCaps)])
                 .(containers := e.containers + [rc])
      && e3 == L.Ran(e2, [VsctlCmd(["list-ports", b]), PipeworkCmd(PipeworkArgs(name))])
                 .(ports := e.ports[b := [name]])
      && e4 == L.Called(e3, [Get(name), Get(name), ExecDetached(name, NatCommand)])
                 .(containers := e.containers + [rc.(natRules := [NatCommand])])
      && L.CreateBridge(e, name) == L.Step(e1, Ok(L.Created))
      && L.RunRouter(e1, name) == L.Step(e2, Ok(L.Created))
      && L.ConfigPipework(e2, name) == L.Step(e3, Ok(L.Enforced))
      && L.ConfigNat(e3, name) == L.Step(e4, Ok(L.Enforced))
  {
    e1 := FreshBridge(e, name);
    e2 := FreshRouter(e1, name);
    e3 := FreshAttach(e2, name);
    UpdateTwice(e.ports, BridgeName(name), [], [name]);
    var rc := L.RouterContainer(name);
    e4 := FreshNat(e3, name, |e.containers|);
    UpdateLast(e.containers, rc, rc.(natRules := [NatCommand]));
  }

  lemma FreshNat(e3: Env, name: string, i: nat) returns (e4: Env)
    requires e3.dockerUp && FindNamed(e3.containers, name) == Some(i)
    requires e3.containers[i] == L.RouterContainer(name)
    ensures e4 == L.Called(e3, [Get(name), Get(name), ExecDetached(name, NatCommand)])
                    .(containers := e3.containers[i := L.RouterContainer(name).(natRules := [NatCommand])])
    ensures L.ConfigNat(e3, name) == L.Step(e4, Ok(L.Enforced))
  {
    e4 := L.Called(e3, [Get(name), Get(name), ExecDetached(name, NatCommand)])
            .(containers := e3.containers[i := L.RouterContainer(name).(natRules := [NatCommand])]);
    L.ConfigNatRunning(e3, name, i);
    assert [] + [NatCommand] == [NatCommand];
  }

  /** A second update of the same key overrides the first. */
  lemma UpdateTwice(m: map<string, seq<string>>, k: string, v: seq<string>, w: seq<string>)
    ensures m[k := v][k := w] == m[k := w]
  {
  }

  /** Replacing the last element of `cs + [c]`. */
  lemma UpdateLast(cs: seq<Container>, c: Container, d: Container)
    ensures (cs + [c])[|cs| := d] == cs + [d]
  {
  }

  lemma FreshBridge(e: Env, name: string) returns (e1: Env)
    requires Valid(e) && e.ovsUp && IsToken(name) && BridgeName(name) !in e.bridges
    ensures var b := BridgeName(name);
      && e1 == L.Ran(e, [VsctlCmd(["list-br"]), VsctlCmd(["add-br", b])])
                 .(bridges := e.bridges + [b], ports := e.ports[b := []])
      && L.CreateBridge(e, name) == L.Step(e1, Ok(L.Created)) && Valid(e1)
  {
    var b := BridgeName(name);
    BridgeNameToken(name);
    var e0 := L.Ran(e, [VsctlCmd(["list-br"]), VsctlCmd(["add-br", b])]);
    e1 := e0.(bridges := e.bridges + [b], ports := e.ports[b := []]);
    L.CreateBridgeNew(e, name);
    L.AddBrKeepsValid(e0, b);
  }

  lemma FreshRouter(e1: Env, name: string) returns (e2: Env)
    requires Valid(e1) && e1.dockerUp && !HasNamed(e1.containers, name)
    ensures var rc := L.RouterContainer(name);
      && e2 == L.Called(e1, [ListAll, RunDetached(ContainerImage, name, true, KernelCaps)])
                 .(containers := e1.containers + [rc])
      && L.RunRouter(e1, name) == L.Step(e2, Ok(L.Created)) && Valid(e2)
      && FindNamed(e2.containers, name) == Some(|e1.containers|)
  {
    var rc := L.RouterContainer(name);
    e2 := L.Called(e1, [ListAll, RunDetached(ContainerImage, name, true, KernelCaps)])
            .(containers := e1.containers + [rc]);
    L.RunRouterNew(e1, name);
    L.RunRouterKeepsValid(e1, name);
    L.FindNamedAppend(e1.containers, rc);
  }

  lemma FreshAttach(e2: Env, name: string) returns (e3: Env)
    requires Valid(e2) && e2.ovsUp && e2.dockerUp && IsToken(name)
    requires BridgeName(name) in e2.bridges && e2.ports[BridgeName(name)] == []
    requires IsRunning(e2.containers, name)
    ensures var b := BridgeName(name);
      && e3 == L.Ran(e2, [VsctlCmd(["list-ports", b]), PipeworkCmd(PipeworkArgs(name))])
                 .(ports := e2.ports[b := [name]])
      && L.ConfigPipework(e2, name) == L.Step(e3, Ok(L.Enforced))
  {
    var b := BridgeName(name);
    e3 := L.Ran(e2, [VsctlCmd(["list-ports", b]), PipeworkCmd(PipeworkArgs(name))])
            .(ports := e2.ports[b := [name]]);
    L.ConfigPipeworkNew(e2, name);
    assert L.CanAttach(e2, name);
    assert e2.ports[b] + [name] == [name];
  }

  /** POST, when each of its four steps succeeds with a known host afterwards. */
  lemma PostOf(e: Env, name: string, e1: Env, e2: Env, e3: Env, e4: Env)
    requires L.CreateBridge(e, name).env == e1 && L.CreateBridge(e, name).result.Ok?
    requires L.RunRouter(e1, name).env == e2 && L.RunRouter(e1, name).result.Ok?
    requires L.ConfigPipework(e2, name).env == e3 && L.ConfigPipework(e2, name).result.Ok?
    requires L.ConfigNat(e3, name).env == e4 && L.ConfigNat(e3, name).result.Ok?
    ensures PostSpec(e, name) == (e4, Ok("create " + name))
  {
  }

  /** POST keeps the host well formed, whatever step fails. */
  lemma PostKeepsValid(e: Env, name: string)
    requires Valid(e)
    ensures Valid(PostSpec(e, name).0)
    ensures L.SameFlags(e, PostSpec(e, name).0)
  {
    var s1 := L.CreateBridge(e, name);
    L.CreateBridgeKeepsValid(e, name);
    if s1.result.Err? {
      assert PostSpec(e, name).0 == s1.env;
      return;
    }
    var s2 := L.RunRouter(s1.env, name);
    L.RunRouterKeepsValid(s1.env, name);
    if s2.result.Err? {
      assert PostSpec(e, name).0 == s2.env;
      return;
    }
    var s3 := L.ConfigPipework(s2.env, name);
    L.ConfigPipeworkKeepsValid(s2.env, name);
    if s3.result.Err? {
      assert PostSpec(e, name).0 == s3.env;
      return;
    }
    var s4 := L.ConfigNat(s3.env, name);
    L.ConfigNatKeepsValid(s3.env, name);
    assert PostSpec(e, name).0 == s4.env;
  }

  /** A POST that returns "create <name>" leaves the router fully provisioned. */
  lemma PostOkProvisioned(e: Env, name: string)
    requires Valid(e) && PostSpec(e, name).1.Ok?
    ensures Valid(PostSpec(e, name).0) && Provisioned(PostSpec(e, name).0, name)
    ensures PostSpec(e, name).1 == Ok("create " + name)
  {
    var s1 := L.CreateBridge(e, name);
    L.CreateBridgeOk(e, name);
    L.CreateBridgeKeepsValid(e, name);
    var s2 := L.RunRouter(s1.env, name);
    L.RunRouterOk(s1.env, name);
    L.RunRouterKeepsValid(s1.env, name);
    var s3 := L.ConfigPipework(s2.env, name);
    L.ConfigPipeworkOk(s2.env, name);
    L.ConfigPipeworkKeepsValid(s2.env, name);
    var s4 := L.ConfigNat(s3.env, name);
    L.ConfigNatOk(s3.env, name);
    L.ConfigNatKeepsValid(s3.env, name);
    PostOf(e, name, s1.env, s2.env, s3.env, s4.env);
  }

  /**
   * POST on a provisioned router creates no bridge, container or port: it only lists them and
   * appends one more masquerade rule to the router's container.
   */
  lemma PostAgain(e: Env, name: string)
    requires Valid(e) && Provisioned(e, name)
    ensures var b := BridgeName(name); var i := FindNamed(e.containers, name).value;
      PostSpec(e, name)
        == (e.(containers := L.WithNatRule(e.containers, i),
               procs := e.procs + [VsctlCmd(["list-br"]), VsctlCmd(["list-ports", b])],
               calls := e.calls + [ListAll, Get(name), Get(name), ExecDetached(name, NatCommand)]),
            Ok("create " + name))
  {
    var e1, e2, e3, e4 := PostAgainSteps(e, name);
    PostOf(e, name, e1, e2, e3, e4);
    AgainEnv(e, name, e1, e2, e3, e4);
  }

  /** The host after a repeated POST, assembled from its four steps. */
  lemma AgainEnv(e: Env, name: string, e1: Env, e2: Env, e3: Env, e4: Env)
    requires HasNamed(e.containers, name)
    requires var b := BridgeName(name); var i := FindNamed(e.containers, name).value;
      && e1 == L.Ran(e, [VsctlCmd(["list-br"])])
      && e2 == L.Called(e1, [ListAll])
      && e3 == L.Ran(e2, [VsctlCmd(["list-ports", b])])
      && e4 == L.Called(e3, [Get(name), Get(name), ExecDetached(name, NatCommand)])
                 .(containers := L.WithNatRule(e.containers, i))
    ensures var b := BridgeName(name); var i := FindNamed(e.containers, name).value;
      e4 == e.(containers := L.WithNatRule(e.containers, i),
               procs := e.procs + [VsctlCmd(["list-br"]), VsctlCmd(["list-ports", b])],
               calls := e.calls + [ListAll, Get(name), Get(name), ExecDetached(name, NatCommand)])
  {
  }

  /** The four steps of a repeated POST, one host after another. */
  lemma PostAgainSteps(e: Env, name: string) returns (e1: Env, e2: Env, e3: Env, e4: Env)
    requires Valid(e) && Provisioned(e, name)
    ensures var b := BridgeName(name); var i := FindNamed(e.containers, name).value;
      && e1 == L.Ran(e, [VsctlCmd(["list-br"])])
      && e2 == L.Called(e1, [ListAll])
      && e3 == L.Ran(e2, [VsctlCmd(["list-ports", b])])
      && e4 == L.Called(e3, [Get(name), Get(name), ExecDetached(name, NatCommand)])
                 .(containers := L.WithNatRule(e.containers, i))
      && L.CreateBridge(e, name) == L.Step(e1, Ok(L.AlreadyExists))
      && L.RunRouter(e1, name) == L.Step(e2, Ok(L.AlreadyExists))
      && L.ConfigPipework(e2, name) == L.Step(e3, Ok(L.AlreadyAttached))
      && L.ConfigNat(e3, name) == L.Step(e4, Ok(L.Enforced))
  {
    var b := BridgeName(name);
    var i := FindNamed(e.containers, name).value;
    e1 := L.Ran(e, [VsctlCmd(["list-br"])]);
    L.CreateBridgeUnchanged(e, name);
    e2 := L.Called(e1, [ListAll]);
    L.RunRouterUnchanged(e1, name);
    e3 := L.Ran(e2, [VsctlCmd(["list-ports", b])]);
    L.ConfigPipeworkAttached(e2, name);
    e4 := L.Called(e3, [Get(name), Get(name), ExecDetached(name, NatCommand)])
            .(containers := L.WithNatRule(e3.containers, i));
    L.ConfigNatRunning(e3, name, i);
  }

  /** POST twice: the second one changes nothing but one more masquerade rule in the container. */
  lemma PostTwice(e: Env, name: string)
    requires Valid(e) && PostSpec(e, name).1.Ok?
    ensures var e1 := PostSpec(e, name).0; var (e2, r2) := PostSpec(e1, name);
      && r2 == Ok("create " + name)
      && e2.bridges == e1.bridges && e2.ports == e1.ports && |e2.containers| == |e1.containers|
      && HasNamed(e1.containers, name)
      && (var i := FindNamed(e1.containers, name).value;
          && e2.containers[i] == e1.containers[i].(natRules := e1.containers[i].natRules + [NatCommand])
          && forall j :: 0 <= j < |e1.containers| && j != i ==> e2.containers[j] == e1.containers[j])
      && e2.procs == e1.procs + [VsctlCmd(["list-br"]), VsctlCmd(["list-ports", BridgeName(name)])]
      && e2.calls == e1.calls + [ListAll, Get(name), Get(name), ExecDetached(name, NatCommand)]
  {
    PostOkProvisioned(e, name);
    AgainShape(PostSpec(e, name).0, name);
  }

  /** POST on a provisioned router, field by field. */
  lemma AgainShape(e1: Env, name: string)
    requires Valid(e1) && Provisioned(e1, name)
    ensures var (e2, r2) := PostSpec(e1, name);
      && r2 == Ok("create " + name)
      && e2.bridges == e1.bridges && e2.ports == e1.ports && |e2.containers| == |e1.containers|
      && HasNamed(e1.containers, name)
      && (var i := FindNamed(e1.containers, name).value;
          && e2.containers[i] == e1.containers[i].(natRules := e1.containers[i].natRules + [NatCommand])
          && forall j :: 0 <= j < |e1.containers| && j != i ==> e2.containers[j] == e1.containers[j])
      && e2.procs == e1.procs + [VsctlCmd(["list-br"]), VsctlCmd(["list-ports", BridgeName(name)])]
      && e2.calls == e1.calls + [ListAll, Get(name), Get(name), ExecDetached(name, NatCommand)]
  {
    PostAgain(e1, name);
  }

  /**
   * No rollback: when the bridge is new but a stopped container already holds the name, POST
   * fails at pipework; the new bridge stays, the container is left as it was, and config_nat is
   * never reached.
   */
  lemma PostNoRollback(e: Env, name: string, i: nat)
    requires Valid(e) && e.ovsUp && e.dockerUp && IsToken(name) && BridgeName(name) !in e.bridges
    requires FindNamed(e.containers, name) == Some(i) && !e.containers[i].running
    ensures var b := BridgeName(name);
      PostSpec(e, name)
        == (e.(bridges := e.bridges + [b],
               ports := e.ports[b := []],
               procs := e.procs + [VsctlCmd(["list-br"]), VsctlCmd(["add-br", b]),
                                   VsctlCmd(["list-ports", b]), PipeworkCmd(PipeworkArgs(name))],
               calls := e.calls + [ListAll]),
            Err(ExecutionFailed(PipeworkCmd(PipeworkArgs(name)))))
  {
    var b := BridgeName(name);
    var err := ExecutionFailed(PipeworkCmd(PipeworkArgs(name)));
    var e1 := FreshBridge(e, name);
    var e2 := L.Called(e1, [ListAll]);
    L.RunRouterUnchanged(e1, name);
    var e3 := StoppedAttach(e2, name, i);
    PostFailsAtAttach(e, name, e1, e2, e3, err);
    NoRollbackEnv(e, name, e1, e2, e3);
  }

  /** The host after POST fails at pipework, assembled from its three steps. */
  lemma NoRollbackEnv(e: Env, name: string, e1: Env, e2: Env, e3: Env)
    requires var b := BridgeName(name);
      && e1 == L.Ran(e, [VsctlCmd(["list-br"]), VsctlCmd(["add-br", b])])
                 .(bridges := e.bridges + [b], ports := e.ports[b := []])
      && e2 == L.Called(e1, [ListAll])
      && e3 == L.Ran(e2, [VsctlCmd(["list-ports", b]), PipeworkCmd(PipeworkArgs(name))])
    ensures var b := BridgeName(name);
      e3 == e.(bridges := e.bridges + [b],
               ports := e.ports[b := []],
               procs := e.procs + [VsctlCmd(["list-br"]), VsctlCmd(["add-br", b]),
                                   VsctlCmd(["list-ports", b]), PipeworkCmd(PipeworkArgs(name))],
               calls := e.calls + [ListAll])
  {
  }

  /** pipework refuses a stopped container: the bridge gets no port. */
  lemma StoppedAttach(e2: Env, name: string, i: nat) returns (e3: Env)
    requires Valid(e2) && e2.ovsUp && BridgeName(name) in e2.bridges && e2.ports[BridgeName(name)] == []
    requires FindNamed(e2.containers, name) == Some(i) && !e2.containers[i].running
    ensures var b := BridgeName(name);
      && e3 == L.Ran(e2, [VsctlCmd(["list-ports", b]), PipeworkCmd(PipeworkArgs(name))])
      && L.ConfigPipework(e2, name) == L.Step(e3, Err(ExecutionFailed(PipeworkCmd(PipeworkArgs(name)))))
  {
    var b := BridgeName(name);
    e3 := L.Ran(e2, [VsctlCmd(["list-ports", b]), PipeworkCmd(PipeworkArgs(name))]);
    L.ConfigPipeworkNew(e2, name);
    assert !L.CanAttach(e2, name);
  }

  /** POST, when its first two steps succeed and config_pipework raises `err`. */
  lemma PostFailsAtAttach(e: Env, name: string, e1: Env, e2: Env, e3: Env, err: Failure)
    requires L.CreateBridge(e, name).env == e1 && L.CreateBridge(e, name).result.Ok?
    requires L.RunRouter(e1, name).env == e2 && L.RunRouter(e1, name).result.Ok?
    requires L.ConfigPipework(e2, name) == L.Step(e3, Err(err))
    ensures PostSpec(e, name) == (e3, Err(err))
  {
  }

  /** No rollback, in general: once create_bridge has succeeded, the bridge survives any later failure. */
  lemma PostKeepsBridge(e: Env, name: string)
    requires Valid(e) && L.CreateBridge(e, name).result.Ok?
    ensures BridgeName(name) in PostSpec(e, name).0.bridges
  {
    var s1 := L.CreateBridge(e, name);
    L.CreateBridgeOk(e, name);
    L.CreateBridgeKeepsValid(e, name);
    var s2 := L.RunRouter(s1.env, name);
    L.RunRouterKeepsValid(s1.env, name);
    if s2.result.Err? {
      assert PostSpec(e, name).0 == s2.env;
      return;
    }
    var s3 := L.ConfigPipework(s2.env, name);
    L.ConfigPipeworkKeepsValid(s2.env, name);
    if s3.result.Err? {
      assert PostSpec(e, name).0 == s3.env;
      return;
    }
    var s4 := L.ConfigNat(s3.env, name);
    L.ConfigNatKeepsValid(s3.env, name);
    assert PostSpec(e, name).0 == s4.env;
  }

  /**
   * No rollback for the container either: once create_bridge and run_router have succeeded, a
   * container called `name` is still there after POST, whatever later step fails.
   */
  lemma PostKeepsRouter(e: Env, name: string)
    requires Valid(e) && L.CreateBridge(e, name).result.Ok?
    requires L.RunRouter(L.CreateBridge(e, name).env, name).result.Ok?
    ensures HasNamed(PostSpec(e, name).0.containers, name)
  {
    var s1 := L.CreateBridge(e, name);
    L.CreateBridgeKeepsValid(e, name);
    var s2 := L.RunRouter(s1.env, name);
    L.RunRouterOk(s1.env, name);
    L.RunRouterKeepsValid(s1.env, name);
    var s3 := L.ConfigPipework(s2.env, name);
    L.ConfigPipeworkKeepsValid(s2.env, name);
    if s3.result.Err? {
      assert PostSpec(e, name).0 == s3.env;
      return;
    }
    var e3 := s3.env;
    var i := FindNamed(e3.containers, name).value;
    if e3.dockerUp && e3.containers[i].running {
      L.ConfigNatRunning(e3, name, i);
      L.UpdateKeepsNames(e3.containers, i, e3.containers[i].(natRules := e3.containers[i].natRules + [NatCommand]));
    } else {
      L.ConfigNatUnchanged(e3, name);
    }
    assert PostSpec(e, name).0 == L.ConfigNat(e3, name).env;
  }

  /** With the switch down, POST fails at the first listing and nothing else is attempted. */
  lemma PostWithSwitchDown(e: Env, name: string)
    requires Valid(e) && !e.ovsUp
    ensures PostSpec(e, name)
         == (e.(procs := e.procs + [VsctlCmd(["list-br"])]), Err(ExecutionFailed(VsctlCmd(["list-br"]))))
  {
    L.CreateBridgeUnchanged(e, name);
  }

  // ---------------------------------------------------------------------------------------------
  // DELETE

  /** DELETE keeps the host well formed, whatever step fails. */
  lemma DeleteKeepsValid(e: Env, name: string)
    requires Valid(e)
    ensures Valid(DeleteSpec(e, name).0)
    ensures L.SameFlags(e, DeleteSpec(e, name).0)
  {
    L.DeleteBridgeKeepsValid(e, name);
    L.StopRouterKeepsValid(L.DeleteBridge(e, name).env, name);
  }

  /**
   * DELETE succeeds exactly when both services answer; then neither the bridge nor a container
   * called `name` remains, and every other container is kept in order. If the switch does not
   * answer, the runtime is never called.
   */
  lemma DeleteEffect(e: Env, name: string)
    requires Valid(e)
    ensures var (e1, r) := DeleteSpec(e, name);
      && (r.Ok? <==> e.ovsUp && e.dockerUp)
      && (r.Ok? ==> r.value == "delete " + name)
      && (r.Ok? ==> BridgeName(name) !in e1.bridges && !HasNamed(e1.containers, name))
      && (r.Ok? ==> e1.containers == match FindNamed(e.containers, name)
                                     case None => e.containers
                                     case Some(i) => e.containers[..i] + e.containers[i + 1..])
      && (!e.ovsUp ==> e1.containers == e.containers && e1.calls == e.calls)
  {
    var s1 := L.DeleteBridge(e, name);
    L.DeleteBridgeKeepsValid(e, name);
    var e1 := s1.env;
    L.StopRouterKeepsValid(e1, name);
    match FindNamed(e.containers, name)
    case None =>
      L.StopRouterNotFound(e1, name);
    case Some(i) =>
      if e.dockerUp {
        L.StopRouterFound(e1, name, i);
        L.RemovedNameGone(e.containers, i);
      } else {
        L.StopRouterNotFound(e1, name);
      }
  }

  /** DELETE twice: the second one finds nothing, changes nothing and only lists. */
  lemma DeleteTwice(e: Env, name: string)
    requires Valid(e) && DeleteSpec(e, name).1.Ok?
    ensures var e1 := DeleteSpec(e, name).0;
      DeleteSpec(e1, name)
        == (e1.(procs := e1.procs + [VsctlCmd(["list-br"])], calls := e1.calls + [ListAll]),
            Ok("delete " + name))
  {
    DeleteEffect(e, name);
    DeleteKeepsValid(e, name);
    var e1 := DeleteSpec(e, name).0;
    L.DeleteBridgeNotFound(e1, name);
    L.StopRouterNotFound(L.Ran(e1, [VsctlCmd(["list-br"])]), name);
  }

  /** POST then DELETE: the router's bridge and container are both gone. */
  lemma PostThenDelete(e: Env, name: string)
    requires Valid(e) && PostSpec(e, name).1.Ok?
    ensures var (e2, r) := DeleteSpec(PostSpec(e, name).0, name);
      r == Ok("delete " + name) && BridgeName(name) !in e2.bridges && !HasNamed(e2.containers, name)
  {
    PostOkProvisioned(e, name);
    DeleteEffect(PostSpec(e, name).0, name);
  }
}
