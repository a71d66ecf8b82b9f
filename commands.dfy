/** The external commands the tool runs: the tunnel (`ssh -fN -L ...`), the two
    probes through the forwarded port (`echo 'tunnel_test'` and `uname -m`) and
    the key deployment (`ssh-copy-id`). Each is a program, its argument vector
    and the timeout the tool wraps around it, if any. */
module Commands {
  import opened Types
  import opened Strings

  datatype Invocation = Invocation(program: string, args: seq<string>, limitSecs: Option<nat>)

  /** The options that make every command non-interactive towards an unknown host. */
  const HostKeyOptions: seq<string> :=
    ["-o", "StrictHostKeyChecking=no", "-o", "UserKnownHostsFile=/dev/null"]

  /** `"<port>:localhost:22"`, the local-forward specification. */
  function ForwardSpec(port: u16): (spec: string)
    ensures |spec| > 13 && spec[|spec| - 13..] == ":localhost:22"
    ensures AllDigits(spec[..|spec| - 13])
  {
    Decimal(port) + ":localhost:22"
  }

  /** Arguments of the background tunnel `ssh` process. */
  function TunnelArgs(port: u16, user: string, host: string): (args: seq<string>)
    ensures |args| == 10
    ensures forall k | 4 <= k < 10 && k % 2 == 0 :: args[k] == "-o"
  {
    ["-fN", "-L", ForwardSpec(port), user + "@" + host]
      + HostKeyOptions + ["-o", "LogLevel=ERROR"]
  }

  /** Arguments of an `ssh` command run on the device through the tunnel. */
  function ProbeArgs(user: string, port: u16, remoteCommand: string): (args: seq<string>)
    ensures |args| == 12
  {
    ["-p", Decimal(port), user + "@localhost", "-o", "ConnectTimeout=5"]
      + HostKeyOptions + ["-o", "LogLevel=ERROR", remoteCommand]
  }

  const ValidationCommand := "echo 'tunnel_test'"
  const DetectionCommand := "uname -m"

  /** Arguments of `ssh-copy-id`, aimed at the forwarded port. */
  function TransferArgs(keyFile: string, user: string, port: u16): (args: seq<string>)
    ensures |args| == 8
  {
    ["-i", keyFile, "-p" + Decimal(port), user + "@localhost"] + HostKeyOptions
  }

  /** Both probes are bounded by a 10-second timeout; the tunnel and the key
      transfer run without one. */
  const ProbeTimeoutSecs: nat := 10

  function TunnelInvocation(port: u16, user: string, host: string): (inv: Invocation)
    ensures PhaseOf(inv) == Create && inv.limitSecs.None?
  {
    Invocation("ssh", TunnelArgs(port, user, host), None)
  }

  function ValidationInvocation(user: string, port: u16): (inv: Invocation)
    ensures PhaseOf(inv) == Validate && inv.limitSecs == Some(ProbeTimeoutSecs)
  {
    Invocation("ssh", ProbeArgs(user, port, ValidationCommand), Some(ProbeTimeoutSecs))
  }

  function DetectionInvocation(user: string, port: u16): (inv: Invocation)
    ensures PhaseOf(inv) == Detect && inv.limitSecs == Some(ProbeTimeoutSecs)
  {
    Invocation("ssh", ProbeArgs(user, port, DetectionCommand), Some(ProbeTimeoutSecs))
  }

  function TransferInvocation(keyFile: string, user: string, port: u16): (inv: Invocation)
    ensures PhaseOf(inv) == Transfer && inv.limitSecs.None?
  {
    Invocation("ssh-copy-id", TransferArgs(keyFile, user, port), None)
  }

  /** Which step of the tool an invocation belongs to, read off its shape alone. */
  datatype Phase = Create | Validate | Detect | Transfer | Foreign

  function PhaseOf(inv: Invocation): Phase {
    if inv.program == "ssh-copy-id" then Transfer
    else if inv.program != "ssh" || |inv.args| == 0 then Foreign
    else if inv.args[0] == "-fN" then Create
    else if inv.args[0] != "-p" then Foreign
    else if inv.args[|inv.args| - 1] == ValidationCommand then Validate
    else if inv.args[|inv.args| - 1] == DetectionCommand then Detect
    else Foreign
  }

  /** Every builder is recognised as its own step, whatever the user, host,
      port or key file. */
  lemma PhasesRecognised(port: u16, user: string, host: string, keyFile: string)
    ensures PhaseOf(TunnelInvocation(port, user, host)) == Create
    ensures PhaseOf(ValidationInvocation(user, port)) == Validate
    ensures PhaseOf(DetectionInvocation(user, port)) == Detect
    ensures PhaseOf(TransferInvocation(keyFile, user, port)) == Transfer
  {
    assert ValidationCommand != DetectionCommand by {
      assert ValidationCommand[0] != DetectionCommand[0];
    }
  }

  /** The port, user and host reach the tunnel command only at indices 2 and 3:
      every other argument is the same for all inputs. */
  lemma {:induction false} TunnelArgsFixedElsewhere(port: u16, user: string, host: string, port': u16, user': string, host': string)
    ensures forall i :: 0 <= i < 10 && i != 2 && i != 3 ==>
              TunnelArgs(port, user, host)[i] == TunnelArgs(port', user', host')[i]
    ensures TunnelArgs(port, user, host)[3] == user + "@" + host
  {
  }

  /** Reads the local port back out of a `"<port>:localhost:22"` specification. */
  function ForwardedPort(spec: string): Option<nat> {
    var suffix := ":localhost:22";
    if |spec| > |suffix| && spec[|spec| - |suffix|..] == suffix && AllDigits(spec[..|spec| - |suffix|])
    then Some(ParseDecimal(spec[..|spec| - |suffix|]))
    else None
  }

  /** Round trip: the forward specification of the tunnel names exactly the
      requested port. */
  lemma {:induction false} ForwardSpecRoundTrip(port: u16)
    ensures ForwardedPort(ForwardSpec(port)) == Some(port as nat)
  {
    var spec := ForwardSpec(port);
    var digits := Decimal(port);
    assert spec[..|spec| - 13] == digits;
    assert spec[|spec| - 13..] == ":localhost:22";
    DecimalRoundTrip(port);
  }

  /** The probes and the key transfer all connect to `localhost` on the very
      port the tunnel forwards, and to the same user. */
  lemma {:induction false} CommandsShareForwardedPort(port: u16, user: string, host: string, keyFile: string)
    ensures var fwd := ForwardedPort(TunnelArgs(port, user, host)[2]);
            && fwd == Some(port as nat)
            && AllDigits(ProbeArgs(user, port, ValidationCommand)[1])
            && fwd == Some(ParseDecimal(ProbeArgs(user, port, ValidationCommand)[1]))
            && ProbeArgs(user, port, DetectionCommand)[1] == ProbeArgs(user, port, ValidationCommand)[1]
            && TransferArgs(keyFile, user, port)[2] == "-p" + ProbeArgs(user, port, ValidationCommand)[1]
            && TransferArgs(keyFile, user, port)[3] == ProbeArgs(user, port, ValidationCommand)[2]
                == user + "@localhost"
  {
    ForwardSpecRoundTrip(port);
    DecimalRoundTrip(port);
  }

  /** The two probes differ only in the remote command they run. */
  lemma ProbesDifferOnlyInCommand(user: string, port: u16)
    ensures ProbeArgs(user, port, ValidationCommand)[..11] == ProbeArgs(user, port, DetectionCommand)[..11]
    ensures ProbeArgs(user, port, ValidationCommand) != ProbeArgs(user, port, DetectionCommand)
  {
    assert ProbeArgs(user, port, ValidationCommand)[11] != ProbeArgs(user, port, DetectionCommand)[11] by {
      assert ValidationCommand[0] != DetectionCommand[0];
    }
  }

  /** Every command disables host-key checking and the known-hosts file. */
  ghost predicate SkipsHostKeyChecks(args: seq<string>) {
    exists i :: HostKeyOptionsAt(args, i)
  }

  ghost predicate HostKeyOptionsAt(args: seq<string>, i: int) {
    0 <= i <= |args| - 4 && args[i..i + 4] == HostKeyOptions
  }

  lemma AllCommandsSkipHostKeyChecks(port: u16, user: string, host: string, keyFile: string)
    ensures SkipsHostKeyChecks(TunnelArgs(port, user, host))
    ensures SkipsHostKeyChecks(ProbeArgs(user, port, ValidationCommand))
    ensures SkipsHostKeyChecks(ProbeArgs(user, port, DetectionCommand))
    ensures SkipsHostKeyChecks(TransferArgs(keyFile, user, port))
  {
    assert HostKeyOptionsAt(TunnelArgs(port, user, host), 4);
    assert HostKeyOptionsAt(ProbeArgs(user, port, ValidationCommand), 5);
    assert HostKeyOptionsAt(ProbeArgs(user, port, DetectionCommand), 5);
    assert HostKeyOptionsAt(TransferArgs(keyFile, user, port), 4);
  }
}
