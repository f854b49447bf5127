/**
  Loading the daemon's configuration from its command-line options
  (`loadDaemonCliConfig` in daemon/command/daemon.go): flag values are copied
  into the configuration, the TLS flags are applied, the configuration file is
  merged, the hosts are normalised, the TLS pair is completed and the CDI
  specification directories are settled. The configuration packages's own
  parsers and validators are function-typed parameters.
*/
module CliConfig {
  import opened Common
  import opened Text
  import opened Listeners

  const FlagTLS: string := "tls"
  const FlagTLSVerify: string := "tlsverify"
  const FlagConfigFile: string := "config-file"
  /** The feature name that switches the Container Device Interface on or off. */
  const CDIFeature: string := "cdi"
  /** `cdi.DefaultSpecDirs`. */
  const DefaultCDISpecDirs: seq<string> := ["/etc/cdi", "/var/run/cdi"]

  /**
    The fields of `config.Config` the daemon command reads or writes. A Go
    pointer or nil slice is an `Option`; `valuesSet` is the set of keys the
    configuration file set explicitly (`IsValueSet`).
  */
  datatype Config = Config(
    debug: bool,
    hosts: seq<string>,
    logLevel: string,
    logFormat: string,
    minAPIVersion: string,
    tls: Option<bool>,
    tlsVerify: Option<bool>,
    tlsOptions: TLSOptions,
    cdiSpecDirs: Option<seq<string>>,
    features: map<string, bool>,
    labels: seq<string>,
    valuesSet: set<string>,
    experimental: bool,
    criContainerd: bool,
    authorizationPlugins: seq<string>,
    httpProxy: string,
    httpsProxy: string,
    noProxy: string,
    shutdownTimeout: int,
    containerdAddr: string)

  /**
    The parsed command line (`daemonOptions`), after its defaults were
    applied: `changed` holds the flags given explicitly, `daemonConfig` the
    configuration the flags were bound to.
  */
  datatype DaemonOptions = DaemonOptions(
    flagsParsed: bool,
    changed: set<string>,
    debug: bool,
    hosts: seq<string>,
    logLevel: string,
    logFormat: string,
    tls: bool,
    tlsVerify: bool,
    tlsOptions: Option<TLSOptions>,
    configFile: string,
    daemonConfig: Config)

  /** An error reading the configuration file; `notExist` when the file is missing. */
  datatype ConfigFileError = ConfigFileError(message: string, notExist: bool)

  /** What `config.MergeDaemonConfigurations` returns: a merged configuration or nil, and an error or nil. */
  datatype MergeOutcome = MergeOutcome(merged: Option<Config>, err: Option<ConfigFileError>)

  /** The environment and the configuration package's helpers that loading calls. */
  datatype ConfigEnv = ConfigEnv(
    minAPIVersionEnv: string,
    validateMinAPIVersion: string -> Option<string>,
    merge: (Config, string) -> MergeOutcome,
    parseHost: (bool, string) -> Result<string, string>,
    validate: Config -> Option<string>,
    conflictFreeLabels: seq<string> -> Result<seq<string>, string>,
    validateCPURealtime: Config -> Option<string>,
    platformOptions: Config -> Option<string>)

  /**
    The explicit `--tls`/`--tlsverify` flags: `--tls` sets TLS, and
    `--tlsverify` (whatever its value) sets verification and switches TLS on.
  */
  function ApplyTLSFlags(conf: Config, opts: DaemonOptions): (c: Config)
    ensures FlagTLSVerify in opts.changed ==> c.tls == Some(true) && c.tlsVerify == Some(opts.tlsVerify)
    ensures FlagTLSVerify !in opts.changed ==> c.tlsVerify == conf.tlsVerify
    ensures FlagTLSVerify !in opts.changed && FlagTLS in opts.changed ==> c.tls == Some(opts.tls)
    ensures opts.changed !! {FlagTLS, FlagTLSVerify} ==> c == conf
    ensures c == conf.(tls := c.tls, tlsVerify := c.tlsVerify)
  {
    var c := if FlagTLS in opts.changed then conf.(tls := Some(opts.tls)) else conf;
    if FlagTLSVerify in opts.changed then c.(tlsVerify := Some(opts.tlsVerify), tls := Some(true)) else c
  }

  /**
    The configuration built from the command line before the file is merged:
    the flag values, a valid `DOCKER_MIN_API_VERSION` override, the TLS flags
    and the certificate file names (empty when TLS options are absent).
  */
  function FlagConfig(opts: DaemonOptions, env: ConfigEnv): (c: Config)
    ensures c.debug == opts.debug && c.hosts == opts.hosts
    ensures c.logLevel == opts.logLevel && c.logFormat == opts.logFormat
    ensures c.minAPIVersion == if env.minAPIVersionEnv != "" then env.minAPIVersionEnv
                               else opts.daemonConfig.minAPIVersion
    ensures c.tlsOptions == if opts.tlsOptions.Some? then opts.tlsOptions.value else TLSOptions("", "", "")
    ensures FlagTLSVerify in opts.changed ==> c.tls == Some(true) && c.tlsVerify == Some(opts.tlsVerify)
    ensures FlagTLSVerify !in opts.changed && FlagTLS in opts.changed ==> c.tls == Some(opts.tls)
    ensures FlagTLSVerify !in opts.changed && FlagTLS !in opts.changed ==> c.tls == opts.daemonConfig.tls
    ensures FlagTLSVerify !in opts.changed ==> c.tlsVerify == opts.daemonConfig.tlsVerify
    ensures c == opts.daemonConfig.(debug := c.debug, hosts := c.hosts, logLevel := c.logLevel,
                                    logFormat := c.logFormat, minAPIVersion := c.minAPIVersion,
                                    tls := c.tls, tlsVerify := c.tlsVerify, tlsOptions := c.tlsOptions)
  {
    var conf := opts.daemonConfig.(debug := opts.debug, hosts := opts.hosts, logLevel := opts.logLevel,
                                   logFormat := opts.logFormat);
    var conf := if env.minAPIVersionEnv != "" then conf.(minAPIVersion := env.minAPIVersionEnv) else conf;
    var conf := ApplyTLSFlags(conf, opts);
    conf.(tlsOptions := if opts.tlsOptions.Some? then opts.tlsOptions.value else TLSOptions("", "", ""))
  }

  /** A configuration-file error aborts loading unless the default file is simply missing. */
  predicate MergeErrorFatal(err: ConfigFileError, opts: DaemonOptions) {
    FlagConfigFile in opts.changed || !err.notExist
  }

  /**
    Completing the TLS pair after validation: a `tlsverify` value set in the
    file switches TLS on, and unset verification inherits the TLS value.
  */
  function DeriveTLS(conf: Config): (c: Config)
    ensures c.tls.Some? ==> c.tlsVerify.Some?
    ensures FlagTLSVerify in conf.valuesSet ==> c.tls == Some(true)
    ensures FlagTLSVerify !in conf.valuesSet ==> c.tls == conf.tls
    ensures conf.tlsVerify.Some? ==> c.tlsVerify == conf.tlsVerify
    ensures conf.tlsVerify.None? ==> c.tlsVerify == c.tls
    ensures c == conf.(tls := c.tls, tlsVerify := c.tlsVerify)
  {
    var c := if FlagTLSVerify in conf.valuesSet then conf.(tls := Some(true)) else conf;
    if c.tlsVerify.None? && c.tls.Some? then c.(tlsVerify := c.tls) else c
  }

  /** Completing the TLS pair a second time changes nothing. */
  lemma DeriveTLSIdempotent(conf: Config)
    ensures DeriveTLS(DeriveTLS(conf)) == DeriveTLS(conf)
  {
  }

  /** `cdiEnabled` on Linux: CDI is on unless the `cdi` feature is explicitly false. */
  predicate CdiEnabled(features: map<string, bool>) {
    CDIFeature !in features || features[CDIFeature]
  }

  /**
    Settling the CDI specification directories: unset means the defaults, a
    single empty entry means none, and a disabled `cdi` feature clears them.
  */
  function NormalizeCDISpecDirs(dirs: Option<seq<string>>, features: map<string, bool>): (r: Option<seq<string>>)
    ensures r != Some([""])
    ensures r.Some? && r.value == [] ==> dirs == Some([])
  {
    var d := if dirs.None? then Some(DefaultCDISpecDirs)
             else if |dirs.value| == 1 && dirs.value[0] == "" then None
             else dirs;
    if CDIFeature in features && !features[CDIFeature] then None else d
  }

  /**
    CDI directories survive only while CDI is enabled: a disabled feature
    leaves none, and an enabled one keeps the configured directories, uses the
    defaults when none were configured and none for a single empty entry.
  */
  lemma {:induction false} CdiSpecDirsFollowFeature(dirs: Option<seq<string>>, features: map<string, bool>)
    ensures !CdiEnabled(features) ==> NormalizeCDISpecDirs(dirs, features).None?
    ensures CdiEnabled(features) && dirs.None? ==> NormalizeCDISpecDirs(dirs, features) == Some(DefaultCDISpecDirs)
    ensures CdiEnabled(features) && dirs == Some([""]) ==> NormalizeCDISpecDirs(dirs, features).None?
    ensures CdiEnabled(features) && dirs.Some? && dirs != Some([""]) ==> NormalizeCDISpecDirs(dirs, features) == dirs
  {
    if dirs.Some? && dirs != Some([""]) && |dirs.value| == 1 {
      assert dirs.value == [dirs.value[0]];
    }
  }

  /** The configuration with its hosts normalised, when they all parse. */
  function WithHosts(conf: Config, env: ConfigEnv): (c: Config)
    ensures c == conf.(hosts := c.hosts)
  {
    var h := NormalizedHosts(conf.hosts, conf.tls, env.parseHost);
    if h.Ok? then conf.(hosts := h.value) else conf
  }

  /** The configuration with conflict-free labels, when they are, and the TLS pair completed. */
  function WithLabelsAndTLS(conf: Config, env: ConfigEnv): (c: Config)
    ensures c == DeriveTLS(conf).(labels := c.labels)
  {
    var l := env.conflictFreeLabels(conf.labels);
    DeriveTLS(if l.Ok? then conf.(labels := l.value) else conf)
  }

  /** The configuration with its CDI specification directories settled. */
  function WithCDI(conf: Config): (c: Config)
    ensures c == conf.(cdiSpecDirs := NormalizeCDISpecDirs(conf.cdiSpecDirs, conf.features))
  {
    conf.(cdiSpecDirs := NormalizeCDISpecDirs(conf.cdiSpecDirs, conf.features))
  }

  /**
    Whether a merged configuration survives the steps after the merge: its
    hosts parse, it validates, its labels are conflict-free, its realtime
    options are valid and the platform accepts it.
  */
  predicate PostMergeAccepted(conf: Config, env: ConfigEnv) {
    var c1 := WithHosts(conf, env);
    var c2 := WithLabelsAndTLS(c1, env);
    NormalizedHosts(conf.hosts, conf.tls, env.parseHost).Ok? &&
    env.validate(c1).None? &&
    env.conflictFreeLabels(c1.labels).Ok? &&
    env.validateCPURealtime(c2).None? &&
    env.platformOptions(WithCDI(c2)).None?
  }

  /**
    The steps of `loadDaemonCliConfig` after the file is merged: host
    normalisation, validation, conflict-free labels, the TLS pair, the
    realtime check, CDI directories and platform options, stopping at the
    first failure. Fields no step touches are kept.
  */
  method FinishConfig(conf: Config, env: ConfigEnv) returns (r: Result<Config, string>)
    ensures r.Ok? <==> PostMergeAccepted(conf, env)
    ensures var h := NormalizedHosts(conf.hosts, conf.tls, env.parseHost);
      h.Err? ==> r == Err(h.error)
    ensures var c1 := WithHosts(conf, env);
      NormalizedHosts(conf.hosts, conf.tls, env.parseHost).Ok? && env.validate(c1).Some? ==>
        r == Err(env.validate(c1).value)
    ensures var c1 := WithHosts(conf, env);
      (NormalizedHosts(conf.hosts, conf.tls, env.parseHost).Ok? && env.validate(c1).None? &&
       env.conflictFreeLabels(conf.labels).Err?) ==> r == Err(env.conflictFreeLabels(conf.labels).error)
    ensures r.Ok? ==> r.value == WithCDI(WithLabelsAndTLS(WithHosts(conf, env), env))
    ensures r.Ok? ==> r.value.hosts == NormalizedHosts(conf.hosts, conf.tls, env.parseHost).value
    ensures r.Ok? ==> r.value.labels == env.conflictFreeLabels(conf.labels).value
    ensures r.Ok? ==> StrictlySorted(r.value.hosts)
    ensures r.Ok? ==> r.value == DeriveTLS(conf).(hosts := r.value.hosts, labels := r.value.labels,
                                                    cdiSpecDirs := r.value.cdiSpecDirs)
    ensures r.Ok? ==> r.value.cdiSpecDirs == NormalizeCDISpecDirs(conf.cdiSpecDirs, conf.features)
    ensures r.Ok? ==> r.value.tls == DeriveTLS(conf).tls && r.value.tlsVerify == DeriveTLS(conf).tlsVerify
    ensures r.Ok? ==> r.value.debug == conf.debug && r.value.logLevel == conf.logLevel &&
                      r.value.logFormat == conf.logFormat && r.value.tlsOptions == conf.tlsOptions &&
                      r.value.minAPIVersion == conf.minAPIVersion && r.value.valuesSet == conf.valuesSet &&
                      r.value.features == conf.features
  {
    var conf := conf;
    var hosts := NormalizeHosts(conf.hosts, conf.tls, env.parseHost);
    if hosts.Err? {
      return Err(hosts.error);
    }
    conf := conf.(hosts := hosts.value);
    var invalid := env.validate(conf);
    if invalid.Some? {
      return Err(invalid.value);
    }
    var labels := env.conflictFreeLabels(conf.labels);
    if labels.Err? {
      return Err(labels.error);
    }
    conf := conf.(labels := labels.value);
    conf := DeriveTLS(conf);
    var realtime := env.validateCPURealtime(conf);
    if realtime.Some? {
      return Err(realtime.value);
    }
    conf := conf.(cdiSpecDirs := NormalizeCDISpecDirs(conf.cdiSpecDirs, conf.features));
    var platform := env.platformOptions(conf);
    if platform.Some? {
      return Err(platform.value);
    }
    return Ok(conf);
  }

  /** Whether reading the configuration file aborts loading. */
  predicate MergeFails(opts: DaemonOptions, env: ConfigEnv) {
    var m := env.merge(FlagConfig(opts, env), opts.configFile);
    opts.configFile != "" && m.err.Some? && MergeErrorFatal(m.err.value, opts)
  }

  /**
    The configuration the merge leaves: the merged one when a file was read
    and produced one, the flag configuration otherwise.
  */
  function MergedConfig(opts: DaemonOptions, env: ConfigEnv): Config {
    var m := env.merge(FlagConfig(opts, env), opts.configFile);
    if opts.configFile != "" && m.merged.Some? then m.merged.value else FlagConfig(opts, env)
  }

  /** The `DOCKER_MIN_API_VERSION` override is absent or valid. */
  predicate MinAPIVersionOK(env: ConfigEnv) {
    env.minAPIVersionEnv == "" || env.validateMinAPIVersion(env.minAPIVersionEnv).None?
  }

  /**
    `loadDaemonCliConfig`. Fails before anything else when the flags were not
    parsed, on an invalid `DOCKER_MIN_API_VERSION`, on a configuration-file
    error other than a missing default file, and on the first failing host,
    validation, label, realtime or platform check. A loaded configuration has
    the normalised hosts, a complete TLS pair and CDI directories only while
    CDI is enabled; without a configuration file it keeps the flag values.
  */
  method LoadDaemonCliConfig(opts: DaemonOptions, env: ConfigEnv) returns (r: Result<Config, string>)
    ensures r.Ok? <==>
      opts.flagsParsed && MinAPIVersionOK(env) && !MergeFails(opts, env) && PostMergeAccepted(MergedConfig(opts, env), env)
    ensures !opts.flagsParsed ==> r == Err("cannot load CLI config before flags are parsed")
    ensures opts.flagsParsed && !MinAPIVersionOK(env) ==>
      r == Err("invalid DOCKER_MIN_API_VERSION: " + env.validateMinAPIVersion(env.minAPIVersionEnv).value)
    ensures opts.flagsParsed && MinAPIVersionOK(env) && MergeFails(opts, env) ==>
      r == Err("unable to configure the Docker daemon with file " + opts.configFile + ": " +
               env.merge(FlagConfig(opts, env), opts.configFile).err.value.message)
    ensures r.Ok? ==> r.value == WithCDI(WithLabelsAndTLS(WithHosts(MergedConfig(opts, env), env), env))
    ensures r.Ok? ==> var m := MergedConfig(opts, env);
      r.value.hosts == NormalizedHosts(m.hosts, m.tls, env.parseHost).value &&
      r.value.labels == env.conflictFreeLabels(m.labels).value
    ensures r.Ok? ==> StrictlySorted(r.value.hosts)
    ensures r.Ok? ==> (r.value.tls.Some? ==> r.value.tlsVerify.Some?)
    ensures r.Ok? ==> (FlagTLSVerify in r.value.valuesSet ==> r.value.tls == Some(true))
    ensures r.Ok? ==> r.value.cdiSpecDirs != Some([""])
    ensures r.Ok? ==> (!CdiEnabled(r.value.features) ==> r.value.cdiSpecDirs.None?)
    ensures r.Ok? && opts.configFile == "" ==>
      var f := FlagConfig(opts, env);
      r.value.debug == opts.debug && r.value.logLevel == opts.logLevel && r.value.logFormat == opts.logFormat &&
      r.value.tlsOptions == f.tlsOptions && r.value.minAPIVersion == f.minAPIVersion &&
      (FlagTLSVerify in opts.changed ==> r.value.tls == Some(true) && r.value.tlsVerify == Some(opts.tlsVerify))
  {
    if !opts.flagsParsed {
      return Err("cannot load CLI config before flags are parsed");
    }
    if env.minAPIVersionEnv != "" {
      var invalid := env.validateMinAPIVersion(env.minAPIVersionEnv);
      if invalid.Some? {
        return Err("invalid DOCKER_MIN_API_VERSION: " + invalid.value);
      }
    }
    var conf := FlagConfig(opts, env);
    if opts.configFile != "" {
      var m := env.merge(conf, opts.configFile);
      if m.err.Some? && MergeErrorFatal(m.err.value, opts) {
        return Err("unable to configure the Docker daemon with file " + opts.configFile + ": " + m.err.value.message);
      }
      if m.merged.Some? {
        conf := m.merged.value;
      }
    }
    assert conf == MergedConfig(opts, env);
    r := FinishConfig(conf, env);
    if r.Ok? {
      CdiSpecDirsFollowFeature(conf.cdiSpecDirs, conf.features);
    }
  }

  /**
    After loading, the TLS authentication check refuses nothing: it is the
    default when TLS was never configured and true otherwise, so the long
    deterrent applies only to a daemon whose TLS was left unset.
  */
  lemma LoadedTLSAuthOK(conf: Config)
    requires conf.tls.Some? ==> conf.tlsVerify.Some?
    ensures CheckTLSAuthOK(conf.tls, conf.tlsVerify) <==> conf.tls.Some? || DefaultTLSValue
  {
  }
}
