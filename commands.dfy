/**
 * The pure part of router.py: its configuration constants, the command vectors that
 * call_prog and call_prog2 build, and the decision call_popen takes on a finished process.
 */
module Commands {
  import opened Base
  import opened Text

  const ContainerImage: string := "opensona/router-docker"
  const FloatingCidr: string := "172.40.0.1/24"
  const ExternalPeerMac: string := "fa:00:00:00:00:01"
  const BridgePrefix: string := "kbr-"
  const PrimaryIntf: string := "eth0"
  const SecondaryIntf: string := "eth1"

  /** The flags every privileged tool invocation carries: a 5-second timeout and a quiet console. */
  const ToolFlags: seq<string> := ["--timeout=5", "-vconsole:off"]

  /** The kernel capabilities granted to a router container. */
  const KernelCaps: seq<string> := ["NET_ADMIN", "NET_RAW"]

  /** The masquerade rule that config_nat executes inside the router container. */
  const NatCommand: string := "iptables -t nat -A POSTROUTING -o " + PrimaryIntf + " -j MASQUERADE"

  /** The OVS bridge dedicated to router `name`. */
  function BridgeName(name: string): (b: string) {
    BridgePrefix + name
  }

  /** Different routers never share a bridge. */
  lemma BridgeNameInjective(a: string, b: string)
    ensures BridgeName(a) == BridgeName(b) <==> a == b
  {
    if BridgeName(a) == BridgeName(b) {
      assert a == BridgeName(a)[|BridgePrefix|..];
    }
  }

  /** The bridge name is a token exactly when the router name is empty or a token. */
  lemma BridgeNameToken(name: string)
    ensures IsToken(BridgeName(name)) <==> name == [] || IsToken(name)
  {
    var b := BridgeName(name);
    if IsToken(b) && name != [] {
      forall i | 0 <= i < |name| ensures !IsSpace(name[i]) {
        assert name[i] == b[|BridgePrefix| + i];
      }
    }
  }

  /** call_prog: privilege, program, the flags, then the program's own arguments. */
  function CallProgCmd(prog: string, args: seq<string>): (cmd: seq<string>)
    ensures |cmd| == |args| + 4
    ensures cmd[..4] == ["sudo", prog] + ToolFlags && cmd[4..] == args
  {
    ["sudo", prog, "--timeout=5", "-vconsole:off"] + args
  }

  /** call_prog2: privilege, program, the program's own arguments, then the flags. */
  function CallProg2Cmd(prog: string, args: seq<string>): (cmd: seq<string>)
    ensures |cmd| == |args| + 4
    ensures cmd[..2] == ["sudo", prog] && cmd[2..|cmd| - 2] == args && cmd[|cmd| - 2..] == ToolFlags
  {
    ["sudo", prog] + args + ["--timeout=5", "-vconsole:off"]
  }

  /**
   * The two conventions build the same words and differ only in where the flags go:
   * moving the two flags from behind the program to the end turns one into the other.
   */
  lemma FlagPlacement(prog: string, args: seq<string>)
    ensures multiset(CallProgCmd(prog, args)) == multiset(CallProg2Cmd(prog, args))
    ensures CallProg2Cmd(prog, args)
         == CallProgCmd(prog, args)[..2] + CallProgCmd(prog, args)[4..] + CallProgCmd(prog, args)[2..4]
  {
  }

  /** ovs_vsctl(*args) */
  function VsctlCmd(args: seq<string>): seq<string> {
    CallProgCmd("ovs-vsctl", args)
  }

  /** pipework(*args) */
  function PipeworkCmd(args: seq<string>): seq<string> {
    CallProg2Cmd("pipework", args)
  }

  /** The arguments config_pipework hands to pipework for router `name`. */
  function PipeworkArgs(name: string): (args: seq<string>)
    ensures |args| == 8 && args[0] == BridgeName(name) && args[1..4] == ["-i", SecondaryIntf, "-l"]
    ensures args[4] == name && args[5] == name && args[6..] == [FloatingCidr, ExternalPeerMac]
  {
    [BridgeName(name), "-i", SecondaryIntf, "-l", name, name, FloatingCidr, ExternalPeerMac]
  }

  /**
   * What call_popen makes of a finished process: any non-zero exit code raises,
   * otherwise the result is the stripped standard output, or "" when there was none.
   */
  function PopenResult(cmd: seq<string>, code: int, stdout: Option<string>): (r: Result<string, Failure>)
    ensures r.Err? <==> code != 0
    ensures r.Err? ==> r.error == ExecutionFailed(cmd)
    ensures r.Ok? ==> Trimmed(r.value)
    ensures r.Ok? && stdout.None? ==> r.value == ""
    ensures r.Ok? && stdout.Some? ==> |r.value| <= |stdout.value|
  {
    if code != 0 then Err(ExecutionFailed(cmd))
    else if stdout.None? then Ok("")
    else Ok(Strip(stdout.value))
  }

  /**
   * A successful command's result is its output with whitespace cut off the two ends and
   * nothing else: the slice of the output that starts at `k`.
   */
  lemma PopenStripped(cmd: seq<string>, out: string) returns (k: nat)
    ensures var r := PopenResult(cmd, 0, Some(out));
      && r.Ok? && k + |r.value| <= |out| && r.value == out[k..k + |r.value|]
      && (forall i :: 0 <= i < k ==> IsSpace(out[i]))
      && (forall i :: k + |r.value| <= i < |out| ==> IsSpace(out[i]))
  {
    k := StripRemovesEnds(out);
  }

  /** Output that is already free of surrounding whitespace comes back unchanged. */
  lemma PopenKeepsTrimmed(cmd: seq<string>, out: string)
    requires Trimmed(out)
    ensures PopenResult(cmd, 0, Some(out)) == Ok(out)
  {
    StripTrimmed(out);
  }
}
