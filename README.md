# ssh_ip_tunnel in Dafny

`ssh_ip_tunnel` is a command-line tool. It opens a background SSH local-port
forward to a device (`ssh -fN -L <port>:localhost:22 user@host`) and checks
through that tunnel that the device answers. It then checks that the device
reports an ARM CPU (`uname -m`) and finally copies a public key to it with
`ssh-copy-id`. This project models the core of that tool:

- the ARM classifier applied to the `uname -m` output (`Arch`);
- resolution of the key path, including `~/` expansion against the home
  directory (`KeyPath`, over the string helpers in `Strings`);
- the exact argument vectors of the four external commands (`Commands`);
- the built-in configuration and how command-line options override it
  (`Configuration`);
- how each step turns an external command's outcome into `Ok` or a
  `TunnelError` (`Outcomes`);
- the run itself. `Orchestration` gives it as functions of an environment and
  the invocation history. `Manager` gives it as imperative classes, a process
  `Runner` and the `TunnelManager`, whose methods are proved to produce exactly
  the result and history of those functions. `RunProperties` proves what a run
  promises: order, retries, the first error wins, skipped steps never run, and
  a run issues only its own commands.

The environment stands in for process spawning. It is a function from the
history of invocations, the current one included, to the reply: the command's
exit status and output, or a spawn error, plus whether the command would
outlast a timeout placed around it. The timeout only takes effect on the two
probes, which carry the 10-second bound. The exponential backoff is given as
`retries`: the number of further tunnel attempts the schedule grants within
`tunnel_timeout_secs`.

In the following places one might expect the tool to behave otherwise. The
model follows the code:

- `max_retries` is configured but never read. Only the time budget bounds the
  retries (`RunProperties.RunIgnoresMaxRetries`).
- Port 0 is not rejected. Any `u16` reaches the commands.
- The key path is resolved inside the key transfer, after the tunnel is up
  and the architecture has been checked. It is not resolved before anything
  is run.
- Validation is tried once and is not retried. Its timeout is reported as
  `TunnelTimeout`. The detection timeout is reported as
  `ArchitectureDetection`.
- The errors are the code's seven `TunnelError` variants. There is no
  per-phase timeout error.
- Nothing tears the tunnel down. No close or cleanup exists in the code.

## Model

| member | source | states |
|---|---|---|
| Strings.StartsWith | src/main.rs:240-242 | `starts_with` holds exactly when the prefix occurs at offset 0 |
| Strings.Contains | src/main.rs:243 | `contains` only holds when the part is no longer than the string |
| Strings.ContainsIffOccurs | src/main.rs:243 | `contains` as a scan over suffixes holds exactly when the part occurs at some offset |
| Strings.Decimal | src/main.rs:132 | a port's decimal rendering is non-empty, all digits, with no leading zero unless the number is 0 |
| Strings.DecimalRoundTrip | src/main.rs:132 | parsing the decimal rendering of `n` gives back `n` |
| Strings.DecimalInjective | src/main.rs:132 | distinct ports render to distinct strings |
| Arch.IsArm | src/main.rs:240-243 | the four-way classifier; any name it accepts has at least three characters |
| Arch.IsArmReduced | src/main.rs:240-243 | the four-way test is equivalent to: contains "arm" or starts with "aarch64" |
| Arch.IsArmIffOccurs | src/main.rs:240-243 | ARM exactly when "arm" occurs at some offset or the name starts with "aarch64" |
| Arch.ArmNamesAccepted | src/main.rs:467-476 | armv7l, armv6l, aarch64, arm64, armv8l and armhf are classified ARM |
| Arch.OtherNamesRejected | src/main.rs:481-493 | x86_64, i686, i386, s390x, ppc64le and mips64 are classified non-ARM |
| Arch.IntelNamesRejected | src/main.rs:481-493 | x86_64, i686 and i386 are classified non-ARM |
| Arch.ServerNamesRejected | src/main.rs:481-493 | s390x, ppc64le and mips64 are classified non-ARM |
| Arch.NoArmIn | src/main.rs:240-243 | a name without the letter 'a' is never ARM |
| KeyPath.Join | src/main.rs:106 | joining an absolute part yields that part, as a Unix path join does |
| KeyPath.JoinKeepsBoth | src/main.rs:106 | a joined path ends with the part and, for a relative part, starts with the base |
| KeyPath.Expand | src/main.rs:104-111 | expansion fails only for a `~/` path with no home, with `InvalidKeyPath` of the path as given; any other path is unchanged |
| KeyPath.ValidateKeyPath | src/main.rs:103-118 | an accepted path is one that exists; every rejection is `InvalidKeyPath` |
| KeyPath.TildeExpandsUnderHome | src/main.rs:104-106 | a `~/` path resolves to home joined with the rest, accepted exactly when that file exists |
| KeyPath.TildeWithoutHomeFails | src/main.rs:107 | a `~/` path with no home directory is rejected with the original path |
| KeyPath.OtherPathsUnchanged | src/main.rs:109-117 | any other path resolves to itself, accepted exactly when it exists |
| KeyPath.DefaultKeyUnderHome | src/main.rs:103-118 | the default key resolves to `<home>/.ssh/id_rsa.pub`, accepted exactly when that file exists |
| KeyPath.MissingPathRejected | src/main.rs:459-461 | `/nonexistent/key.pub` is rejected when it does not exist |
| Commands.ForwardSpec | src/main.rs:132 | the forward specification is the port's decimal digits followed by `:localhost:22` |
| Commands.TunnelArgs | src/main.rs:129-140 | the tunnel command has ten arguments, with `-o` before each of its three options |
| Commands.ProbeArgs | src/main.rs:265-278 | a probe command has twelve arguments |
| Commands.TransferArgs | src/main.rs:314-323 | the key-transfer command has eight arguments |
| Commands.TunnelInvocation | src/main.rs:150-153 | the tunnel command is an `ssh` recognised as creation, run with no timeout |
| Commands.ValidationInvocation | src/main.rs:262-281 | the validation probe is recognised as validation and bounded by 10 seconds |
| Commands.DetectionInvocation | src/main.rs:182-201 | the detection probe is recognised as detection and bounded by 10 seconds |
| Commands.TransferInvocation | src/main.rs:313-325 | the key transfer is an `ssh-copy-id` recognised as transfer, run with no timeout |
| Commands.PhasesRecognised | src/main.rs:129-323 | each of the four commands is recognised as its own step, whatever the user, host, port or key |
| Commands.TunnelArgsFixedElsewhere | src/main.rs:129-140 | user, host and port reach the tunnel command only at indices 2 and 3; index 3 is `user@host` |
| Commands.ForwardSpecRoundTrip | src/main.rs:132 | the forward specification `<port>:localhost:22` reads back as exactly the port |
| Commands.CommandsShareForwardedPort | src/main.rs:129-323 | both probes and the key transfer connect to localhost on the port the tunnel forwards |
| Commands.ProbesDifferOnlyInCommand | src/main.rs:185-198 | the validation and detection probes agree on every argument but the remote command |
| Commands.AllCommandsSkipHostKeyChecks | src/main.rs:129-323 | every command disables strict host-key checking and the known-hosts file |
| Configuration.Default | src/main.rs:43-53 | defaults are key `~/.ssh/id_rsa.pub`, port 2222, 30 s, 3 retries, check on |
| Configuration.DefaultIsSound | src/main.rs:43-53 | the default port is in 1..65535 and the default timeout is positive |
| Configuration.Unwrap | src/main.rs:420-421 | `unwrap_or` yields the present value, or the fallback when there is none |
| Configuration.Merge | src/main.rs:420-427 | the CLI key and port win when given; skip is on exactly when the config or the CLI says so; every other field is kept |
| Configuration.MergeIdempotent | src/main.rs:420-427 | merging the same options twice equals merging once |
| Configuration.MergeNeverClearsSkip | src/main.rs:424-427 | the command line can turn the architecture check off but never back on; without the flag the config is untouched |
| Configuration.BareInvocationUsesDefaults | src/main.rs:420-427 | with no options over the defaults the run uses the default key, port 2222 and the check on |
| Outcomes.Observe | src/main.rs:262-281 | a timeout is observed exactly on a bounded invocation that overruns; otherwise the command's own outcome is |
| Outcomes.CreateAttempt | src/main.rs:149-170 | an attempt is done exactly on a successful exit and permanent exactly on a spawn error; a transient failure carries the stderr |
| Outcomes.ValidateVerdict | src/main.rs:283-300 | validation is `Ok` exactly on a successful exit in time; a timeout is `TunnelTimeout`; other failures are `ConnectionValidation` |
| Outcomes.DetectVerdict | src/main.rs:203-223 | detection yields the stdout exactly on a successful exit in time; every failure, a timeout included, is `ArchitectureDetection` |
| Outcomes.ArmVerdict | src/main.rs:240-250 | the gate passes exactly on an ARM name and otherwise fails with `NonArmCpu` |
| Outcomes.TransferVerdict | src/main.rs:313-333 | the transfer is `Ok` exactly on a successful exit; failures are `KeyTransfer`, carrying stderr on a non-zero exit |
| Orchestration.CreateSpec | src/main.rs:144-172 | creation appends between 1 and `retries + 1` commands; every creation error is `TunnelCreation` |
| Orchestration.ValidateSpec | src/main.rs:257-301 | validation appends its one probe; it fails only with `TunnelTimeout` or `ConnectionValidation` |
| Orchestration.DetectSpec | src/main.rs:179-224 | detection appends its one probe; it fails only with `ArchitectureDetection` |
| Orchestration.ArmCheckSpec | src/main.rs:227-254 | a skipped gate passes and runs nothing; otherwise it appends one detection probe; it fails only with `ArchitectureDetection` or `NonArmCpu` |
| Orchestration.TransferSpec | src/main.rs:304-337 | the transfer appends at most one command; running none means the key did not resolve; it fails only with `InvalidKeyPath` or `KeyTransfer` |
| Orchestration.RunSpec | src/main.rs:340-371 | a run issues at least one and at most `retries + 4` commands |
| RunProperties.CreateRetryBehaviour | src/main.rs:144-172 | creation runs only the tunnel command, between 1 and `retries + 1` times; all attempts but the last failed transiently; `Ok` exactly when the last attempt succeeded, else its error; a last transient failure used the whole schedule |
| RunProperties.CreateSucceedsAfterTransients | src/main.rs:144-172 | `k <= retries` transient failures followed by a success give `Ok` after exactly `k + 1` attempts |
| RunProperties.CreationStage | src/main.rs:121-176 | creation fills the history with tunnel commands only; its result is the last attempt's verdict |
| RunProperties.CreationChained | src/main.rs:149-172 | every creation attempt after the first follows a transient failure |
| RunProperties.ValidationStage | src/main.rs:257-301 | validation appends one probe, and its verdict is the stage's result |
| RunProperties.ArchitectureStage | src/main.rs:227-254 | the skipped gate runs nothing and passes; otherwise one detection probe is appended and its verdict is the result |
| RunProperties.TransferStage | src/main.rs:304-337 | an unresolvable key fails with the resolution error and runs nothing; otherwise one `ssh-copy-id` on the resolved file is appended and its verdict is the result |
| RunProperties.RunOrder | src/main.rs:340-371 | a run starts with a creation attempt, and each later command is allowed by the verdict of the one before it |
| RunProperties.AfterValidation | src/main.rs:357-363 | after a successful validation the gate and the transfer keep the history in that order |
| RunProperties.RunIssuesOwnCommands | src/main.rs:340-371 | a run issues only the request's four commands, the transfer with the resolved key file |
| RunProperties.RunOutcome | src/main.rs:340-371 | a run is `Ok` exactly when its last command succeeded and is the final step the run asks for; an error is the last command's verdict, or the key-resolution error raised right after the gate passed (after validation when the gate is skipped) |
| RunProperties.FirstErrorWins | src/main.rs:349-363 | every command but the last succeeded or was a retried creation attempt |
| RunProperties.SkippedStepsNeverRun | src/main.rs:349-363 | a tunnel-only run never runs `ssh-copy-id`; with the check off `uname -m` never runs |
| RunProperties.RunIgnoresMaxRetries | src/main.rs:144-147 | the configured `max_retries` has no effect on a run |
| RunProperties.HappyPath | src/main.rs:340-371 | when every step succeeds at once, a run issues exactly the four commands and is `Ok` |
| Manager.Runner.constructor | src/main.rs:150-153 | a new process runner has an empty history and the given environment |
| Manager.Runner.Run | src/main.rs:182-201 | running a command appends it to the history and returns the environment's reply, timed out only when bounded |
| Manager.TunnelManager.constructor | src/main.rs:98-100 | the manager keeps the configuration it is given |
| Manager.TunnelManager.CreateTunnel | src/main.rs:121-176 | the retry loop produces exactly the result and history of the creation specification |
| Manager.TunnelManager.ValidateTunnel | src/main.rs:257-301 | the probe produces exactly the validation specification's result and history |
| Manager.TunnelManager.DetectArchitecture | src/main.rs:179-224 | the probe produces exactly the detection specification's result and history |
| Manager.TunnelManager.ValidateArmArchitecture | src/main.rs:227-254 | the gate, skipped or not, matches the architecture-check specification |
| Manager.TunnelManager.TransferKey | src/main.rs:304-337 | key resolution then `ssh-copy-id` matches the transfer specification |
| Manager.TunnelManager.Run | src/main.rs:340-371 | the whole run produces exactly the result and history of the run specification |
| Manager.Launch | src/main.rs:413-440 | the entry point runs the manager with the merged key, port and configuration |

## Left out

- Process spawning, stdout/stderr capture and `tokio::time::timeout` are replaced by the environment function. The environment decides each command's outcome and whether it overruns.
- Commands are assumed to terminate, because the environment always answers. In the code the tunnel `ssh` (src/main.rs:150-153) and `ssh-copy-id` (src/main.rs:313-325) run with no timeout. The backoff's time budget (src/main.rs:144-147) is only consulted between attempts. So a command that never exits, such as one waiting at a password prompt, stalls the run forever, and the model cannot express that.
- The `ExponentialBackoff` schedule (its intervals, jitter and clock) is replaced by `retries`. This is the number of further attempts it grants within `tunnel_timeout_secs`, so `tunnel_timeout_secs` itself is not consulted.
- The 500 ms sleep after creation affects only timing, not results.
- `load_config` is not part of this model, and neither is the TOML file it reads. `Manager.Launch` takes the loaded configuration as a parameter.
- `clap` parsing is not part of this model. `Cli` holds the parsed options, and the config-file option is consumed by loading.
- `dirs::home_dir` and `PathBuf::exists` are parameters: an optional home directory and the set of paths that exist. Symlinks, permissions and non-UTF-8 paths are not modelled.
- Outcomes.DetectVerdict: the stdout is taken as already decoded and trimmed, because `from_utf8_lossy` and `trim` are not modelled. The stderr in every error is taken as already decoded by `from_utf8_lossy`. The code never trims stderr, and the model does not either.
- The logging (`init_logging`, `info!`, `warn!`, `debug!`, `error!`) and the `verbose` flag have no effect on results.
- The `Display` texts of `TunnelError` are not modelled. The `detail` strings the steps build are modelled.
- Tunnel teardown: the background `ssh -fN` process outlives the tool, and nothing in the code stops it.
