/**
  The daemon's edits of its own process environment
  (daemon/command/daemon.go): the OTLP protocol defaults, the service name
  default and the proxy variables copied from the configuration. The
  environment is a map from variable names to values; `os.Getenv` of an
  absent variable is the empty string.
*/
module ProcessEnv {
  import opened CliConfig

  const TracesProtocolEnv: string := "OTEL_EXPORTER_OTLP_TRACES_PROTOCOL"
  const MetricsProtocolEnv: string := "OTEL_EXPORTER_OTLP_METRICS_PROTOCOL"
  const ProtocolEnv: string := "OTEL_EXPORTER_OTLP_PROTOCOL"
  const DefaultOTLPProtocol: string := "http/protobuf"
  const ServiceNameEnv: string := "OTEL_SERVICE_NAME"

  /** `os.Getenv`: the value of a variable, empty when it is not set. */
  function Getenv(vars: map<string, string>, name: string): string {
    if name in vars then vars[name] else ""
  }

  /**
    The environment after `setOTLPProtoDefault`: when no general OTLP
    protocol is set, the traces and metrics protocols default to
    "http/protobuf" where they are empty.
  */
  function OTLPDefaults(vars: map<string, string>): map<string, string> {
    if Getenv(vars, ProtocolEnv) != "" then vars
    else
      var v := if Getenv(vars, TracesProtocolEnv) == "" then vars[TracesProtocolEnv := DefaultOTLPProtocol] else vars;
      if Getenv(v, MetricsProtocolEnv) == "" then v[MetricsProtocolEnv := DefaultOTLPProtocol] else v
  }

  /**
    Applying the OTLP defaults: explicit values are kept, only the two
    per-signal variables can change, and with no general protocol both end up
    non-empty; applying them twice is the same as once.
  */
  lemma OTLPDefaultsFacts(vars: map<string, string>)
    ensures var v := OTLPDefaults(vars);
      forall name :: name in vars && vars[name] != "" ==> name in v && v[name] == vars[name]
    ensures var v := OTLPDefaults(vars);
      forall name :: name != TracesProtocolEnv && name != MetricsProtocolEnv ==>
        (name in v <==> name in vars) && (name in vars ==> v[name] == vars[name])
    ensures var v := OTLPDefaults(vars);
      Getenv(vars, ProtocolEnv) == "" ==>
        Getenv(v, TracesProtocolEnv) != "" && Getenv(v, MetricsProtocolEnv) != ""
    ensures Getenv(vars, ProtocolEnv) != "" ==> OTLPDefaults(vars) == vars
    ensures OTLPDefaults(OTLPDefaults(vars)) == OTLPDefaults(vars)
  {
    var v := OTLPDefaults(vars);
    assert Getenv(v, ProtocolEnv) == Getenv(vars, ProtocolEnv);
  }

  /** The two spellings of one proxy variable set to `value`, when it is non-empty. */
  function ProxyPair(upper: string, lower: string, value: string): map<string, string> {
    if value != "" then map[upper := value, lower := value] else map[]
  }

  /** The proxy variables a configuration overrides, with their values. */
  function ProxyOverrides(cfg: Config): map<string, string> {
    ProxyPair("HTTP_PROXY", "http_proxy", cfg.httpProxy) +
    ProxyPair("HTTPS_PROXY", "https_proxy", cfg.httpsProxy) +
    ProxyPair("NO_PROXY", "no_proxy", cfg.noProxy)
  }

  /** `overrideProxyEnv` for both spellings of one proxy variable, when its value is non-empty. */
  function OverridePair(vars: map<string, string>, upper: string, lower: string, value: string): map<string, string> {
    if value != "" then vars[upper := value][lower := value] else vars
  }

  /**
    The environment after `configureProxyEnv`: the HTTP, HTTPS and no-proxy
    settings, each applied when non-empty.
  */
  function ProxyEnv(vars: map<string, string>, cfg: Config): map<string, string> {
    var v := OverridePair(vars, "HTTP_PROXY", "http_proxy", cfg.httpProxy);
    var v := OverridePair(v, "HTTPS_PROXY", "https_proxy", cfg.httpsProxy);
    OverridePair(v, "NO_PROXY", "no_proxy", cfg.noProxy)
  }

  lemma OverridePairIsUnion(vars: map<string, string>, upper: string, lower: string, value: string)
    requires upper != lower
    ensures OverridePair(vars, upper, lower, value) == vars + ProxyPair(upper, lower, value)
  {
  }

  lemma MapUnionAssociative(a: map<string, string>, b: map<string, string>, c: map<string, string>)
    ensures a + b + c == a + (b + c)
  {
  }

  /**
    Configuring the proxy environment sets exactly the variables of every
    configured proxy, in both spellings, to the configured value and keeps
    every other variable; doing it twice is the same as once.
  */
  lemma ProxyEnvFacts(vars: map<string, string>, cfg: Config)
    ensures ProxyEnv(vars, cfg) == vars + ProxyOverrides(cfg)
    ensures ProxyEnv(ProxyEnv(vars, cfg), cfg) == ProxyEnv(vars, cfg)
  {
    var h := ProxyPair("HTTP_PROXY", "http_proxy", cfg.httpProxy);
    var s := ProxyPair("HTTPS_PROXY", "https_proxy", cfg.httpsProxy);
    var n := ProxyPair("NO_PROXY", "no_proxy", cfg.noProxy);
    forall m: map<string, string> ensures ProxyEnv(m, cfg) == m + ProxyOverrides(cfg) {
      OverridePairIsUnion(m, "HTTP_PROXY", "http_proxy", cfg.httpProxy);
      OverridePairIsUnion(m + h, "HTTPS_PROXY", "https_proxy", cfg.httpsProxy);
      OverridePairIsUnion(m + h + s, "NO_PROXY", "no_proxy", cfg.noProxy);
      MapUnionAssociative(m, h, s);
      MapUnionAssociative(m, h + s, n);
    }
    var o := ProxyOverrides(cfg);
    MapUnionAssociative(vars, o, o);
    assert o + o == o;
  }

  /** The daemon's process environment. */
  class Environment {
    var vars: map<string, string>

    constructor (vars: map<string, string>)
      ensures this.vars == vars
    {
      this.vars := vars;
    }

    /** `os.Setenv`. */
    method Setenv(name: string, value: string)
      modifies this
      ensures vars == old(vars)[name := value]
    {
      vars := vars[name := value];
    }

    /** `setOTLPProtoDefault`. */
    method SetOTLPProtoDefault()
      modifies this
      ensures vars == OTLPDefaults(old(vars))
    {
      if Getenv(vars, ProtocolEnv) == "" {
        if Getenv(vars, TracesProtocolEnv) == "" {
          Setenv(TracesProtocolEnv, DefaultOTLPProtocol);
        }
        if Getenv(vars, MetricsProtocolEnv) == "" {
          Setenv(MetricsProtocolEnv, DefaultOTLPProtocol);
        }
      }
    }

    /**
      The service-name default set while starting: the executable's base name
      when the variable is not present at all (an empty value is kept).
    */
    method SetServiceNameDefault(executableBase: string)
      modifies this
      ensures ServiceNameEnv in old(vars) ==> vars == old(vars)
      ensures ServiceNameEnv !in old(vars) ==> vars == old(vars)[ServiceNameEnv := executableBase]
    {
      if ServiceNameEnv !in vars {
        Setenv(ServiceNameEnv, executableBase);
      }
    }

    /**
      `overrideProxyEnv`: sets the variable, and reports whether a different
      non-empty value was overridden (which the daemon logs as a warning).
    */
    method OverrideProxyEnv(name: string, value: string) returns (overridden: bool)
      modifies this
      ensures vars == old(vars)[name := value]
      ensures overridden <==> Getenv(old(vars), name) != "" && Getenv(old(vars), name) != value
    {
      var oldValue := Getenv(vars, name);
      overridden := oldValue != "" && oldValue != value;
      Setenv(name, value);
    }

    /** `configureProxyEnv`. */
    method ConfigureProxyEnv(cfg: Config)
      modifies this
      ensures vars == ProxyEnv(old(vars), cfg)
    {
      if cfg.httpProxy != "" {
        var _ := OverrideProxyEnv("HTTP_PROXY", cfg.httpProxy);
        var _ := OverrideProxyEnv("http_proxy", cfg.httpProxy);
      }
      if cfg.httpsProxy != "" {
        var _ := OverrideProxyEnv("HTTPS_PROXY", cfg.httpsProxy);
        var _ := OverrideProxyEnv("https_proxy", cfg.httpsProxy);
      }
      if cfg.noProxy != "" {
        var _ := OverrideProxyEnv("NO_PROXY", cfg.noProxy);
        var _ := OverrideProxyEnv("no_proxy", cfg.noProxy);
      }
    }
  }
}
