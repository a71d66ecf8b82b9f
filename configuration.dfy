/** The tool's configuration record, its built-in defaults, and how the
    command-line options override a loaded configuration before the tunnel
    manager is built. */
module Configuration {
  import opened Types

  datatype Config = Config(
    defaultKeyPath: string,
    defaultPort: u16,
    tunnelTimeoutSecs: u64,
    maxRetries: u32,
    skipArchValidation: bool)

  /** The command-line options that reach the core (the config-file path is
      consumed by loading, which is not modelled). */
  datatype Cli = Cli(
    host: string,
    user: string,
    key: Option<string>,
    port: Option<u16>,
    noKeyTransfer: bool,
    verbose: bool,
    skipArchValidation: bool)

  function Default(): (c: Config)
    ensures c.defaultPort == 2222 && c.defaultKeyPath == "~/.ssh/id_rsa.pub"
    ensures c.tunnelTimeoutSecs == 30 && c.maxRetries == 3 && !c.skipArchValidation
  {
    Config("~/.ssh/id_rsa.pub", 2222, 30, 3, false)
  }

  /** The defaults are usable as they stand: a non-zero port and a positive
      timeout. */
  lemma DefaultIsSound()
    ensures 1 <= Default().defaultPort <= 65535 && Default().tunnelTimeoutSecs > 0
  {
  }

  /** `unwrap_or`: the present value, or the fallback when there is none. */
  function Unwrap<T>(o: Option<T>, fallback: T): (v: T)
    ensures o.Some? ==> v == o.value
    ensures o.None? ==> v == fallback
  {
    match o
    case Some(v) => v
    case None => fallback
  }

  /** What the manager is run with: the key path, the local port and the final
      configuration. */
  datatype Settings = Settings(keyPath: string, port: u16, config: Config)

  /** The override step: CLI key and port win when given; the skip flag can be
      switched on from the command line but never off. */
  function Merge(config: Config, cli: Cli): (s: Settings)
    ensures cli.key.Some? ==> s.keyPath == cli.key.value
    ensures cli.key.None? ==> s.keyPath == config.defaultKeyPath
    ensures cli.port.Some? ==> s.port == cli.port.value
    ensures cli.port.None? ==> s.port == config.defaultPort
    ensures s.config.skipArchValidation <==> config.skipArchValidation || cli.skipArchValidation
    ensures s.config.defaultKeyPath == config.defaultKeyPath && s.config.defaultPort == config.defaultPort
    ensures s.config.tunnelTimeoutSecs == config.tunnelTimeoutSecs && s.config.maxRetries == config.maxRetries
  {
    var keyPath := Unwrap(cli.key, config.defaultKeyPath);
    var port := Unwrap(cli.port, config.defaultPort);
    var finalConfig := if cli.skipArchValidation then config.(skipArchValidation := true) else config;
    Settings(keyPath, port, finalConfig)
  }

  /** Merging the same options into the merged configuration changes nothing:
      the override is idempotent. */
  lemma MergeIdempotent(config: Config, cli: Cli)
    ensures Merge(Merge(config, cli).config, cli) == Merge(config, cli)
  {
  }

  /** The skip flag is monotone: a configuration that already skips the check
      keeps skipping it whatever the command line says, and one that does not
      skip is left untouched when the flag is absent. */
  lemma MergeNeverClearsSkip(config: Config, cli: Cli)
    ensures config.skipArchValidation ==> Merge(config, cli).config == config
    ensures !cli.skipArchValidation ==> Merge(config, cli).config == config
  {
  }

  /** With nothing on the command line and the built-in defaults, the tool runs
      with key `~/.ssh/id_rsa.pub`, port 2222 and the architecture check on. */
  lemma BareInvocationUsesDefaults(host: string, user: string, noKeyTransfer: bool, verbose: bool)
    ensures var s := Merge(Default(), Cli(host, user, None, None, noKeyTransfer, verbose, false));
            s.keyPath == "~/.ssh/id_rsa.pub" && s.port == 2222 && s.config == Default()
  {
  }
}
