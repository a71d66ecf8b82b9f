/** The tunnel manager as the tool runs it: one step after another against a
    process runner, returning at the first error. Every method is proved to
    produce exactly the result and invocation history of its specification
    function in `Orchestration`. */
module Manager {
  import opened Types
  import opened KeyPath
  import opened Commands
  import opened Outcomes
  import opened Configuration
  import opened Orchestration

  /** The process runner: it records every invocation in `log` and answers
      from the environment, applying the invocation's timeout if it has one. */
  class Runner {
    const env: Env
    var log: seq<Invocation>

    constructor (env: Env)
      ensures this.env == env && log == []
    {
      this.env := env;
      log := [];
    }

    method Run(inv: Invocation) returns (t: Timed<Io>)
      modifies this
      ensures log == old(log) + [inv]
      ensures t == Observe(inv, env(log))
    {
      log := log + [inv];
      t := Observe(inv, env(log));
    }
  }

  class TunnelManager {
    const config: Config

    constructor (config: Config)
      ensures this.config == config
    {
      this.config := config;
    }

    /** Runs the tunnel command under the retry policy, which allows `retries`
        further attempts after the first. */
    method CreateTunnel(runner: Runner, host: string, user: string, port: u16, retries: nat) returns (r: Result<()>)
      modifies runner
      ensures Traced(r, runner.log) == CreateSpec(runner.env, old(runner.log), host, user, port, retries)
    {
      var inv := TunnelInvocation(port, user, host);
      var left := retries;
      while true
        invariant CreateSpec(runner.env, runner.log, host, user, port, left)
                  == CreateSpec(runner.env, old(runner.log), host, user, port, retries)
        decreases left
      {
        var t := runner.Run(inv);
        match CreateAttempt(t.value)
        case Done =>
          return Ok(());
        case Permanent(e) =>
          return Err(e);
        case Transient(e) =>
          if left == 0 {
            return Err(e);
          }
          left := left - 1;
      }
    }

    method ValidateTunnel(runner: Runner, user: string, port: u16) returns (r: Result<()>)
      modifies runner
      ensures Traced(r, runner.log) == ValidateSpec(runner.env, old(runner.log), user, port)
    {
      var t := runner.Run(ValidationInvocation(user, port));
      r := ValidateVerdict(t);
    }

    method DetectArchitecture(runner: Runner, user: string, port: u16) returns (r: Result<string>)
      modifies runner
      ensures Traced(r, runner.log) == DetectSpec(runner.env, old(runner.log), user, port)
    {
      var t := runner.Run(DetectionInvocation(user, port));
      r := DetectVerdict(t);
    }

    method ValidateArmArchitecture(runner: Runner, user: string, port: u16) returns (r: Result<()>)
      modifies runner
      ensures Traced(r, runner.log)
              == ArmCheckSpec(runner.env, old(runner.log), config.skipArchValidation, user, port)
    {
      if config.skipArchValidation {
        return Ok(());
      }
      var arch := DetectArchitecture(runner, user, port);
      if arch.Err? {
        return Err(arch.error);
      }
      r := ArmVerdict(arch.value);
    }

    method TransferKey(runner: Runner, keyPath: string, user: string, port: u16, local: Local) returns (r: Result<()>)
      modifies runner
      ensures Traced(r, runner.log) == TransferSpec(runner.env, old(runner.log), keyPath, user, port, local)
    {
      var key := ValidateKeyPath(keyPath, local.home, local.existing);
      if key.Err? {
        return Err(key.error);
      }
      var t := runner.Run(TransferInvocation(key.value, user, port));
      r := TransferVerdict(t.value);
    }

    /** The whole run; the half-second pause after creation is not modelled. */
    method Run(runner: Runner, host: string, user: string, keyPath: string, port: u16,
               skipKeyTransfer: bool, local: Local, retries: nat) returns (r: Result<()>)
      modifies runner
      ensures Traced(r, runner.log)
              == RunSpec(runner.env, old(runner.log), config,
                         Request(host, user, keyPath, port, skipKeyTransfer), local, retries)
    {
      r := CreateTunnel(runner, host, user, port, retries);
      if r.Err? {
        return;
      }
      r := ValidateTunnel(runner, user, port);
      if r.Err? {
        return;
      }
      r := ValidateArmArchitecture(runner, user, port);
      if r.Err? {
        return;
      }
      if !skipKeyTransfer {
        r := TransferKey(runner, keyPath, user, port, local);
        if r.Err? {
          return;
        }
      }
      r := Ok(());
    }
  }

  /** The entry point after option parsing and configuration loading: merge
      the command line over the configuration, build the manager and run. */
  method Launch(runner: Runner, cli: Cli, config: Config, local: Local, retries: nat) returns (r: Result<()>)
    modifies runner
    ensures var s := Merge(config, cli);
            Traced(r, runner.log)
              == RunSpec(runner.env, old(runner.log), s.config,
                         Request(cli.host, cli.user, s.keyPath, s.port, cli.noKeyTransfer), local, retries)
  {
    var settings := Merge(config, cli);
    var manager := new TunnelManager(settings.config);
    r := manager.Run(runner, cli.host, cli.user, settings.keyPath, settings.port, cli.noKeyTransfer, local, retries);
  }
}
