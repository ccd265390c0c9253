# Router lifecycle model

This project models the code that provisions and tears down a software router. The router is a
Docker container with its own Open vSwitch bridge. An authenticated REST route,
`/api/v1/router/<name>`, drives it:

- POST creates the bridge `kbr-<name>`, starts the router container, attaches the container to
  the bridge with pipework, and installs a masquerade NAT rule in the container.
- DELETE deletes the bridge, then stops and force-removes the container.

Each step first asks the switch or the runtime what exists. It does nothing when the resource is
already there (or already gone). The one exception is the NAT step: each call appends another
copy of the rule.

The modules follow the program:

- `Base`: optional values, results, and the two kinds of failure that escape the router code.
  - `ExecutionFailed(cmd)` is call_popen's `RuntimeError`.
  - `DockerFailed(err)` is an error raised by the Docker client.
- `Text`: Python's `str.strip()` and `str.splitlines()`.
  - It proves that a listing printed one name per line, stripped and split, gives back exactly
    its names.
  - This is what makes the "already exists" checks exact-name tests rather than substring tests.
- `Commands`: the configuration constants, the command vectors built by `call_prog` and
  `call_prog2`, and what `call_popen` makes of a finished process.
- `Environment`: the host as a value. It holds:
  - the bridges and their ports;
  - the containers (name, image, privilege, capabilities, running flag, NAT rules executed in
    it);
  - whether the switch and the runtime answer;
  - a log of every process started and every runtime request made.

  The external tools and the Docker API are functions on this value.
- `Lifecycle`: each `router.py` operation as a function from a host to the next host and an
  outcome. The outcome is either the status the operation would print, or the failure it raises.
  Lemmas then state each operation's behavior case by case, the well-formedness it preserves,
  and what calling it twice does (for config_nat, calling it `k` times).
- `Router`: `router.py` as it runs.
  - `class Host` holds the mutable host.
  - Its primitive methods are the process runner and the Docker client.
  - Each router function is a method that acts on the shared `Host`, including the container scans of
    `run_router` and `stop_router`, which are `while` loops.
  - Each method is proved to leave the host and return exactly what the `Lifecycle` function says.
- `Daemon`: the `create(name)` route.
  - `PostSpec` and `DeleteSpec` specify it, and `Create` implements it on a `Host`.
  - `verify_password` works over an abstract password-hash check, and `Serve` is the
    `login_required` guard.
  - Lemmas cover POST on a clean host, POST twice, POST then DELETE, DELETE twice, no rollback
    after a partial failure, and authentication gating.

Two facts about the code shape the model:

- call_popen raises a `RuntimeError` that carries only the command (router.py:38-39), so
  `ExecutionFailed(cmd)` carries no exit status.
- config_nat is the one step that does not check first: it appends the rule on every call
  (router.py:177-178); see `Lifecycle.NatRulesAccumulate` and `Daemon.PostTwice`.

## Model

| member | source | states |
|---|---|---|
| Commands.CallProgCmd | router.py:53 | The command is `sudo`, the program, the two tool flags (`--timeout=5`, `-vconsole:off`), then exactly the given arguments. |
| Commands.CallProg2Cmd | router.py:63 | The command is `sudo`, the program, exactly the given arguments, then the two tool flags. |
| Commands.FlagPlacement | router.py:53-63 | Both conventions build the same multiset of words. Moving the two flags from behind the program to the end turns the call_prog vector into the call_prog2 vector. |
| Commands.BridgeNameInjective | router.py:127 | `kbr-a == kbr-b` exactly when `a == b`, so no two routers share a bridge. |
| Commands.BridgeNameToken | router.py:127 | The bridge name has no whitespace and is non-empty exactly when the router name is empty or itself a whitespace-free name. |
| Commands.PipeworkArgs | router.py:161-162 | pipework gets eight arguments: the bridge `kbr-<name>` first, `-i eth1 -l`, then the router name as local interface and as container, the floating CIDR and the peer MAC. |
| Commands.PopenResult | router.py:38-43 | The call fails exactly when the exit code is non-zero, with the failing command. Otherwise the result is trimmed, is `""` when no output was captured, and is no longer than the output. |
| Commands.PopenStripped | router.py:43 | A successful result is a slice of the output, and everything cut off its two ends is whitespace. |
| Commands.PopenKeepsTrimmed | router.py:43 | Output without surrounding whitespace comes back unchanged. |
| Text.Strip | router.py:43 | The result of `strip()` has no whitespace at either end and is no longer than its input. |
| Text.StripRemovesEnds | router.py:43 | `strip()` returns a contiguous slice of its input, removing only whitespace, and only at the two ends. |
| Text.StripTrimmed | router.py:43 | Stripping a string without surrounding whitespace returns it unchanged. |
| Text.StripIdempotent | router.py:43 | Stripping twice is the same as stripping once. |
| Text.SplitLines | router.py:129 | No line returned by `splitlines()` contains a line break. The result is empty exactly when the text is. |
| Text.ListingRoundTrip | router.py:128-129 | A listing of whitespace-free names, one per line, stripped and then split, gives back exactly that sequence of names. |
| Text.ListedExactly | router.py:129 | A name is in the stripped, split listing exactly when it is one of the listed names. |
| Environment.FindNamed | router.py:97-98 | The scan finds nothing exactly when no container has the name. Otherwise it returns the index of the first container with that name. |
| Lifecycle.ListBridges | router.py:128 | `list-br` logs one command, fails exactly when the switch does not answer, and otherwise splits back into exactly the host's bridges. |
| Lifecycle.ListPorts | router.py:156 | `list-ports kbr-<name>` fails exactly when the switch does not answer or the bridge is missing. Otherwise it splits back into exactly that bridge's ports. |
| Lifecycle.ExtensionNotMatched | router.py:129 | A listing holding only a longer name does not match a shorter name that it begins with. |
| Lifecycle.ExactLineNotPrefix | router.py:129 | The stripped, split listing of `kbr-router-20` does not contain `kbr-router-2`. |
| Lifecycle.AddBr | router.py:133 | `add-br` fails exactly when the switch is down, the bridge exists or the name is not a token. On success it adds the bridge with no ports. |
| Lifecycle.DelBr | router.py:147 | `del-br` fails exactly when the switch is down or the bridge is missing. On success it removes the bridge and its ports. |
| Lifecycle.CreateBridgeNew | router.py:127-134 | For a bridge that is not listed, create_bridge issues exactly `list-br` then `add-br kbr-<name>`. The add adds that one bridge with no ports, or raises with the add-br command. |
| Lifecycle.CreateBridgeUnchanged | router.py:127-131 | For a listed bridge, create_bridge only lists and reports "already exists". With the switch down, it raises at the listing. |
| Lifecycle.CreateBridgeKeepsValid | router.py:122-134 | create_bridge keeps the host well formed and leaves containers, runtime calls and service availability alone. |
| Lifecycle.CreateBridgeOk | router.py:122-134 | A successful create_bridge means the switch answered and `kbr-<name>` is a bridge. When it already existed, the switch state is unchanged. |
| Lifecycle.CreateBridgeTwice | router.py:122-134 | After a successful create_bridge, a second call reports "already exists", changes no resource, only lists, and there is exactly one `kbr-<name>`. |
| Lifecycle.DeleteBridgeFound | router.py:141-148 | For a listed bridge, delete_bridge issues exactly `list-br` then `del-br kbr-<name>`, removing that bridge and its ports and nothing else. |
| Lifecycle.DeleteBridgeNotFound | router.py:141-145 | For a bridge that is not listed, delete_bridge only lists and reports "not found". With the switch down, it raises. |
| Lifecycle.DeleteBridgeKeepsValid | router.py:136-148 | delete_bridge keeps the host well formed and leaves the runtime alone. It succeeds exactly when the switch answers, and then the bridge is gone. |
| Lifecycle.DeleteBridgeTwice | router.py:136-148 | After a successful delete_bridge, a second call reports "not found", changes no resource and only lists. |
| Lifecycle.RunRouterNew | router.py:95-103 | When no container, running or stopped, has the name, run_router lists all containers, then starts exactly one: named `name`, from `opensona/router-docker`, privileged, with `NET_ADMIN` and `NET_RAW`. |
| Lifecycle.RunRouterUnchanged | router.py:95-100 | When a container with the name exists, run_router only lists and reports "already exists". With the runtime down, it raises. |
| Lifecycle.RunRouterKeepsValid | router.py:90-104 | run_router keeps container names unique and leaves the switch and the process log alone. |
| Lifecycle.RunRouterOk | router.py:90-104 | A successful run_router means a container with the name exists. When it already existed, the containers are unchanged. |
| Lifecycle.RunRouterTwice | router.py:90-104 | After a successful run_router, a second call only lists and reports "already exists". Exactly one container has the name. |
| Lifecycle.StopRouterFound | router.py:111-118 | For an existing container, stop_router lists, stops and force-removes exactly that container. The other containers stay, in order. |
| Lifecycle.StopRouterNotFound | router.py:111-120 | When no container has the name, stop_router only lists and reports "not found". With the runtime down, it raises. |
| Lifecycle.StopRouterKeepsValid | router.py:106-120 | stop_router keeps container names unique and leaves the switch and the process log alone. |
| Lifecycle.StopRouterTwice | router.py:106-120 | After a successful stop_router, a second call finds no container with the name, only lists, and reports "not found". |
| Lifecycle.ConfigPipeworkNoBridge | router.py:155-156 | With the bridge missing or the switch down, config_pipework raises at `list-ports` and never runs pipework. |
| Lifecycle.ConfigPipeworkAttached | router.py:155-159 | When the port is already on the bridge, config_pipework only lists the ports and runs no pipework. |
| Lifecycle.ConfigPipeworkNew | router.py:155-163 | Otherwise pipework runs exactly once with the fixed arguments. It adds the port exactly when the runtime answers, the container is running and the port name is valid; otherwise it raises with the pipework command. |
| Lifecycle.AttachRun | router.py:162 | One pipework run adds port `name` to `kbr-<name>` exactly when the attachment is possible, and otherwise raises with its command. |
| Lifecycle.ConfigPipeworkKeepsValid | router.py:150-163 | config_pipework keeps the host well formed and never touches bridges, containers or the runtime. |
| Lifecycle.ConfigPipeworkOk | router.py:150-163 | A successful config_pipework means port `name` is on bridge `kbr-<name>`. When it already was, the ports are unchanged. |
| Lifecycle.ConfigPipeworkTwice | router.py:150-163 | After a successful config_pipework, a second call finds the port attached, only lists the ports, and runs no pipework. |
| Lifecycle.ConfigNatRunning | router.py:170-179 | On a running container: two gets, then one exec of the masquerade rule on `eth0`, which is appended to that container's rules whatever it already holds. Nothing else changes. |
| Lifecycle.ConfigNatUnchanged | router.py:170-178 | A missing container is reported, not raised, after one get. A stopped container makes the exec fail. A runtime that is down makes the first get fail. No resource changes. |
| Lifecycle.ConfigNatKeepsValid | router.py:165-179 | config_nat keeps container names unique and leaves the switch and the process log alone. |
| Lifecycle.ConfigNatOk | router.py:170-179 | A successful config_nat on an existing container means that container is running. |
| Lifecycle.NatRulesAccumulate | router.py:177-178 | `k` calls of config_nat on a running container leave `k` more copies of the masquerade rule in it. No other container, bridge or port changes. |
| Router.Host.Popen | router.py:36-37 | Starting a process changes the host and yields the exit code and output exactly as the process runner does. |
| Router.Host.ListContainers | router.py:96 | `containers.list(all=True)` as the runtime defines it. |
| Router.Host.RunContainer | router.py:103 | `containers.run(...)` as the runtime defines it. |
| Router.Host.GetContainer | router.py:172 | `containers.get(name)` as the runtime defines it. |
| Router.Host.ExecIn | router.py:178 | `exec_run(cmd, detach=True)` as the runtime defines it. |
| Router.Host.StopContainer | router.py:115 | `container.stop()` as the runtime defines it. |
| Router.Host.RemoveContainer | router.py:116 | `container.remove(force=True)` as the runtime defines it. |
| Router.CallPopen | router.py:30-44 | The host afterwards and the result are those of `Lifecycle.CallPopen`, the process run followed by the call_popen normalisation. |
| Router.CallProg | router.py:46-54 | It runs exactly the call_prog vector through call_popen. |
| Router.CallProg2 | router.py:56-64 | It runs exactly the call_prog2 vector through call_popen. |
| Router.OvsVsctl | router.py:66-72 | It is call_prog with `ovs-vsctl`. |
| Router.Pipework | router.py:82-88 | It is call_prog2 with `pipework`. |
| Router.RunRouter | router.py:90-104 | The scan loop and the run leave the host and return exactly as `Lifecycle.RunRouter` says. |
| Router.StopRouter | router.py:106-120 | The scan loop, stop and remove leave the host and return exactly as `Lifecycle.StopRouter` says. |
| Router.CreateBridge | router.py:122-134 | It leaves the host and returns exactly as `Lifecycle.CreateBridge` says. |
| Router.DeleteBridge | router.py:136-148 | It leaves the host and returns exactly as `Lifecycle.DeleteBridge` says. |
| Router.ConfigPipework | router.py:150-163 | It leaves the host and returns exactly as `Lifecycle.ConfigPipework` says. |
| Router.ConfigNat | router.py:165-179 | It leaves the host and returns exactly as `Lifecycle.ConfigNat` says. |
| Daemon.Create | daemon.py:37-47 | The handler leaves the host and returns exactly as POST (four steps in order, first failure propagated, then `create <name>`) or DELETE (two steps, then `delete <name>`) specifies. |
| Daemon.VerifyPassword | daemon.py:29-33 | An admitted request is admitted as the user name it presented. |
| Daemon.OnlyConfiguredUser | daemon.py:25-33 | A request is admitted exactly when the user is `onos` and the hash check accepts the password. |
| Daemon.Serve | daemon.py:35-47 | The guarded route leaves the host and answers exactly as the guard followed by the handler specifies. |
| Daemon.RejectedTouchesNothing | daemon.py:29-36 | A request that fails authentication is answered "unauthorized" and leaves the host exactly as it was: no command, no runtime call. |
| Daemon.PostFresh | daemon.py:38-43 | POST on a clean host adds one bridge with the one port `name`, and one privileged router container holding one masquerade rule. It issues exactly these four commands and five runtime calls, in this order, and returns `create <name>`. |
| Daemon.PostKeepsValid | daemon.py:38-43 | POST keeps the host well formed whatever step fails, and starts or stops no service. |
| Daemon.PostOkProvisioned | daemon.py:38-43 | A POST that returns leaves the bridge, the port on it and a running container, and the answer is `create <name>`. |
| Daemon.PostAgain | daemon.py:38-43 | POST on a provisioned router only lists: two commands and four runtime calls. It changes nothing but one more masquerade rule in the router's container. |
| Daemon.PostTwice | daemon.py:38-43 | After a successful POST, a second POST returns `create <name>`. Bridges, ports and the other containers are unchanged, and one more masquerade rule is in the router's container. |
| Daemon.PostNoRollback | daemon.py:38-43 | When a stopped container already holds the name, POST creates the bridge, fails at pipework with the pipework command, leaves the bridge and the container as they are, and never reaches config_nat. |
| Daemon.PostKeepsBridge | daemon.py:38-43 | Once create_bridge has succeeded, the bridge is still there after POST, whatever later step fails. |
| Daemon.PostKeepsRouter | daemon.py:38-43 | Once create_bridge and run_router have succeeded, a container with the name is still there after POST, whatever later step fails. |
| Daemon.PostWithSwitchDown | daemon.py:38-39 | With the switch down, POST raises at the first listing and nothing else is attempted. |
| Daemon.DeleteKeepsValid | daemon.py:44-47 | DELETE keeps the host well formed whatever step fails, and starts or stops no service. |
| Daemon.DeleteEffect | daemon.py:44-47 | DELETE succeeds exactly when both services answer. It then returns `delete <name>`, the bridge is gone, no container has the name, and the other containers stay in order. With the switch down, the runtime is never called. |
| Daemon.DeleteTwice | daemon.py:44-47 | After a successful DELETE, a second DELETE only lists (one command, one runtime call) and returns `delete <name>`. |
| Daemon.PostThenDelete | daemon.py:38-47 | After a successful POST, DELETE returns `delete <name>`, and neither the bridge nor a container with the name remains. |

## Left out

- The switch, pipework and the Docker daemon are external programs. `Environment` gives them one possible behavior:
  - listings print one name per line;
  - `add-br` refuses an existing or malformed name;
  - `del-br` and `list-ports` refuse a missing bridge;
  - pipework needs an existing bridge, a running container and a new port name;
  - `exec_run` needs a running container.

  What these tools really do under other conditions is not modelled.
- `call_popen`'s UTF-8 decoding and its `len(output) == 0` case: output is already a string, and `communicate()` always returns a pair.
- `print` calls became the `Lifecycle.Status` value each operation returns.
- Container IDs: containers are identified by name, and `containers.get` does not also look them up by ID or ID prefix.
- Interface-name length limits and the kernel's own validation of port names.
- pipework's own behavior when the bridge is missing: the model's pipework refuses it, and config_pipework never reaches pipework in that case anyway.
- Concurrency: two requests on the same name racing each other, and a container that has not finished starting when pipework runs.
- `docker.from_env()` client construction and connection settings: the runtime is either reachable or not.
- `ovs_ofctl`: defined in router.py but never called by the core.
- `main()` in router.py and the `GET /api/v1/` liveness route in daemon.py: neither is part of the lifecycle.
- Flask, flask_httpauth and werkzeug: the HTTP server, the 401 response and the password hashing. The hash check is a parameter of `VerifyPassword`, and the stored hash is a parameter of `Users`.
- Unhandled exceptions become `ServerError(failure)`. Flask's error page is not modelled.
