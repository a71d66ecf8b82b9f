/** The orchestration of one run as functions of the environment: given the
    history of invocations so far, each step yields its result and the history
    extended with the invocations it made. These are the specifications the
    imperative manager is proved against. */
module Orchestration {
  import opened Types
  import opened KeyPath
  import opened Commands
  import opened Outcomes
  import opened Configuration

  /** A step's result together with the invocation history after it. */
  datatype Traced<T> = Traced(result: Result<T>, log: seq<Invocation>)

  /** The arguments of one run: target, key, local port and tunnel-only flag. */
  datatype Request = Request(host: string, user: string, keyPath: string, port: u16, skipKeyTransfer: bool)

  /** The local machine as far as key resolution sees it. */
  datatype Local = Local(home: Option<string>, existing: set<string>)

  /** Tunnel creation under the retry policy: `retries` is how many further
      attempts the backoff schedule grants after the first within the configured
      time budget. A permanent failure stops at once; a transient one is retried
      while the schedule allows and is returned when it runs out. */
  function CreateSpec(env: Env, log: seq<Invocation>, host: string, user: string, port: u16, retries: nat): (r: Traced<()>)
    ensures log < r.log && |r.log| <= |log| + retries + 1
    ensures r.result.Err? ==> r.result.error.TunnelCreation?
    decreases retries
  {
    var calls := log + [TunnelInvocation(port, user, host)];
    match CreateAttempt(env(calls).io)
    case Done => Traced(Ok(()), calls)
    case Permanent(e) => Traced(Err(e), calls)
    case Transient(e) =>
      if retries == 0 then Traced(Err(e), calls)
      else CreateSpec(env, calls, host, user, port, retries - 1)
  }

  /** One bounded probe; it fails with a timeout or a validation error. */
  function ValidateSpec(env: Env, log: seq<Invocation>, user: string, port: u16): (r: Traced<()>)
    ensures r.log == log + [ValidationInvocation(user, port)]
    ensures r.result.Err? ==> r.result.error == TunnelTimeout || r.result.error.ConnectionValidation?
  {
    var inv := ValidationInvocation(user, port);
    var calls := log + [inv];
    Traced(ValidateVerdict(Observe(inv, env(calls))), calls)
  }

  /** One bounded probe; every failure is a detection error. */
  function DetectSpec(env: Env, log: seq<Invocation>, user: string, port: u16): (r: Traced<string>)
    ensures r.log == log + [DetectionInvocation(user, port)]
    ensures r.result.Err? ==> r.result.error.ArchitectureDetection?
  {
    var inv := DetectionInvocation(user, port);
    var calls := log + [inv];
    Traced(DetectVerdict(Observe(inv, env(calls))), calls)
  }

  /** The architecture gate: skipped outright when configured, otherwise a
      detection failure propagates and a non-ARM name is rejected. */
  function ArmCheckSpec(env: Env, log: seq<Invocation>, skip: bool, user: string, port: u16): (r: Traced<()>)
    ensures skip ==> r == Traced(Ok(()), log)
    ensures !skip ==> r.log == log + [DetectionInvocation(user, port)]
    ensures r.result.Err? ==> r.result.error.ArchitectureDetection? || r.result.error.NonArmCpu?
  {
    if skip then Traced(Ok(()), log)
    else
      var d := DetectSpec(env, log, user, port);
      match d.result
      case Err(e) => Traced(Err(e), d.log)
      case Ok(arch) => Traced(ArmVerdict(arch), d.log)
  }

  /** Key transfer: the key path is resolved before anything is run. */
  function TransferSpec(env: Env, log: seq<Invocation>, keyPath: string, user: string, port: u16, local: Local): (r: Traced<()>)
    ensures log <= r.log && |r.log| <= |log| + 1
    ensures r.log == log ==> r.result.Err? && r.result.error.InvalidKeyPath?
    ensures r.result.Err? ==> r.result.error.InvalidKeyPath? || r.result.error.KeyTransfer?
  {
    match ValidateKeyPath(keyPath, local.home, local.existing)
    case Err(e) => Traced(Err(e), log)
    case Ok(path) =>
      var calls := log + [TransferInvocation(path, user, port)];
      Traced(TransferVerdict(env(calls).io), calls)
  }

  /** One run: create, validate, check the architecture, then transfer the key
      unless the run is tunnel-only; the first error ends the run. */
  function RunSpec(env: Env, log: seq<Invocation>, config: Config, req: Request, local: Local, retries: nat): (r: Traced<()>)
    ensures log < r.log && |r.log| <= |log| + retries + 4
  {
    var c := CreateSpec(env, log, req.host, req.user, req.port, retries);
    if c.result.Err? then c
    else
      var v := ValidateSpec(env, c.log, req.user, req.port);
      if v.result.Err? then v
      else
        var a := ArmCheckSpec(env, v.log, config.skipArchValidation, req.user, req.port);
        if a.result.Err? || req.skipKeyTransfer then a
        else TransferSpec(env, a.log, req.keyPath, req.user, req.port, local)
  }
}
