/** What an external command can come back with, and how each step of the tool
    turns that into `Ok` or a `TunnelError`. */
module Outcomes {
  import opened Types
  import opened Arch
  import opened Commands

  /** The result of running a command to completion: its exit status and
      captured output (already decoded), or the error of failing to spawn it. */
  datatype Io = Output(success: bool, stdout: string, stderr: string) | SpawnError(message: string)

  /** A command run under a timeout finishes in time or the timeout elapses. */
  datatype Timed<T> = InTime(value: T) | Elapsed

  /** The environment's answer to one invocation: what the command does, and
      whether it takes longer than a timeout placed around it. */
  datatype Reply = Reply(io: Io, overran: bool)

  /** The environment: the reply to the last invocation of a call history.
      Any deterministic stand-in for the process runner is such a function. */
  type Env = seq<Invocation> -> Reply

  /** What the caller observes: a timeout only elapses on an invocation that
      carries one. */
  function Observe(inv: Invocation, reply: Reply): (t: Timed<Io>)
    ensures t.Elapsed? <==> inv.limitSecs.Some? && reply.overran
    ensures t.InTime? ==> t.value == reply.io
  {
    if inv.limitSecs.Some? && reply.overran then Elapsed else InTime(reply.io)
  }

  predicate Succeeded(t: Timed<Io>) {
    t.InTime? && t.value.Output? && t.value.success
  }

  /** How a single tunnel-creation attempt ends, in the retry library's terms. */
  datatype Attempt = Done | Transient(error: TunnelError) | Permanent(error: TunnelError)

  /** A failure to spawn `ssh` is permanent (never retried); a non-zero exit is
      transient (retried), carrying the captured stderr. */
  function CreateAttempt(io: Io): (a: Attempt)
    ensures a.Done? <==> io.Output? && io.success
    ensures a.Permanent? <==> io.SpawnError?
    ensures a.Transient? ==> a.error == TunnelCreation(io.stderr)
    ensures !a.Done? ==> a.error.TunnelCreation?
  {
    match io
    case SpawnError(m) => Permanent(TunnelCreation("Failed to execute SSH: " + m))
    case Output(ok, _, stderr) => if ok then Done else Transient(TunnelCreation(stderr))
  }

  /** The verdict of the connectivity probe. */
  function ValidateVerdict(t: Timed<Io>): (r: Result<()>)
    ensures r.Ok? <==> Succeeded(t)
    ensures r.Err? && t.Elapsed? ==> r.error == TunnelTimeout
    ensures r.Err? && t.InTime? ==> r.error.ConnectionValidation?
  {
    match t
    case Elapsed => Err(TunnelTimeout)
    case InTime(SpawnError(m)) => Err(ConnectionValidation("Failed to execute validation command: " + m))
    case InTime(Output(ok, _, stderr)) =>
      if ok then Ok(()) else Err(ConnectionValidation("Tunnel validation failed: " + stderr))
  }

  /** The verdict of the `uname -m` probe: the architecture name, or an
      `ArchitectureDetection` error for every kind of failure, timeout included. */
  function DetectVerdict(t: Timed<Io>): (r: Result<string>)
    ensures r.Ok? <==> Succeeded(t)
    ensures r.Ok? ==> r.value == t.value.stdout
    ensures r.Err? ==> r.error.ArchitectureDetection?
  {
    match t
    case Elapsed => Err(ArchitectureDetection("Timeout while detecting architecture"))
    case InTime(SpawnError(m)) => Err(ArchitectureDetection("Failed to execute architecture detection: " + m))
    case InTime(Output(ok, stdout, stderr)) =>
      if ok then Ok(stdout) else Err(ArchitectureDetection("Failed to detect architecture: " + stderr))
  }

  /** An architecture name passes exactly when it is ARM; otherwise `NonArmCpu`. */
  function ArmVerdict(arch: string): (r: Result<()>)
    ensures r.Ok? <==> IsArm(arch)
    ensures r.Err? ==> r.error.NonArmCpu?
  {
    if IsArm(arch) then Ok(())
    else Err(NonArmCpu("Detected architecture '" + arch
                       + "' is not ARM-based. Use --skip-arch-validation to override"))
  }

  /** The verdict of `ssh-copy-id`; its stderr becomes the error on a non-zero exit. */
  function TransferVerdict(io: Io): (r: Result<()>)
    ensures r.Ok? <==> io.Output? && io.success
    ensures r.Err? ==> r.error.KeyTransfer?
    ensures r.Err? && io.Output? ==> r.error.detail == io.stderr
  {
    match io
    case SpawnError(m) => Err(KeyTransfer("Failed to execute ssh-copy-id: " + m))
    case Output(ok, _, stderr) => if ok then Ok(()) else Err(KeyTransfer(stderr))
  }
}
