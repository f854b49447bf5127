/**
  How the daemon command wires its parts together (daemon/command/daemon.go):
  the options passed to a managed containerd, the choice between a system
  containerd and a managed one, the shutdown deadline, the API routers and the
  middleware chain of the API server. Starting processes, probing sockets and
  constructing the routers' backends are parameters or left out.
*/
module DaemonWiring {
  import opened Common
  import opened CliConfig

  /** An option of the containerd supervisor (`supervisor.DaemonOpt`). */
  datatype DaemonOpt = WithLogLevel(level: string) | WithLogFormat(format: string) | WithCRIDisabled

  /**
    `getContainerdDaemonOpts` on Linux: the log level ("debug" when the daemon
    debugs), the log format when one is configured, and CRI disabled unless
    it was asked for, in that order.
  */
  function ContainerdDaemonOpts(cfg: Config): (opts: seq<DaemonOpt>)
    ensures |opts| == 1 + (if cfg.logFormat != "" then 1 else 0) + (if cfg.criContainerd then 0 else 1)
    ensures opts[0] == WithLogLevel(if cfg.debug then "debug" else cfg.logLevel)
    ensures forall f :: WithLogFormat(f) in opts <==> cfg.logFormat != "" && f == cfg.logFormat
    ensures WithCRIDisabled in opts <==> !cfg.criContainerd
    ensures !cfg.criContainerd ==> opts[|opts| - 1] == WithCRIDisabled
  {
    var level := [WithLogLevel(if cfg.debug then "debug" else cfg.logLevel)];
    var format := if cfg.logFormat != "" then [WithLogFormat(cfg.logFormat)] else [];
    var cri := if !cfg.criContainerd then [WithCRIDisabled] else [];
    level + format + cri
  }

  /** What probing for a system containerd found: its socket address and whether it exists. */
  datatype ContainerdProbe = ContainerdProbe(addr: string, running: bool)

  /**
    The containerd the daemon talks to: its address, and whether the daemon
    started it and so must wait for it to shut down.
  */
  datatype Containerd = Containerd(addr: string, managed: bool)

  /**
    `initializeContainerd`: a running system containerd is used as it is;
    otherwise a managed one is started with `ContainerdDaemonOpts`. Probing and
    starting failures are reported with their context.
  */
  function InitializeContainerd(cfg: Config, probe: Result<ContainerdProbe, string>,
                                startManaged: seq<DaemonOpt> -> Result<string, string>): (r: Result<Containerd, string>)
    ensures probe.Err? ==> r == Err("could not determine whether the system containerd is running: " + probe.error)
    ensures r.Ok? && !r.value.managed <==> probe.Ok? && probe.value.running
    ensures r.Ok? && !r.value.managed ==> r.value.addr == probe.value.addr
    ensures r.Ok? && r.value.managed <==>
      probe.Ok? && !probe.value.running && startManaged(ContainerdDaemonOpts(cfg)).Ok?
    ensures r.Ok? && r.value.managed ==> startManaged(ContainerdDaemonOpts(cfg)) == Ok(r.value.addr)
    ensures r.Err? && probe.Ok? ==>
      r.error == "failed to start containerd: " + startManaged(ContainerdDaemonOpts(cfg)).error
  {
    match probe
    case Err(e) => Err("could not determine whether the system containerd is running: " + e)
    case Ok(p) =>
      if p.running then Ok(Containerd(p.addr, false))
      else
        match startManaged(ContainerdDaemonOpts(cfg))
        case Err(e) => Err("failed to start containerd: " + e)
        case Ok(addr) => Ok(Containerd(addr, true))
  }

  datatype ShutdownOutcome = CleanShutdown | ForcedShutdown

  /**
    `shutdownDaemon`: a non-negative shutdown timeout (in seconds) bounds the
    wait for the daemon's own shutdown, which took `took` seconds; a negative
    one waits for as long as it takes. Reaching the deadline is reported as a
    forced shutdown. Returns the outcome and how long the caller waited.
  */
  function ShutdownDaemon(timeout: int, took: nat): (r: (ShutdownOutcome, nat))
    ensures r.1 <= took
    ensures timeout >= 0 ==> r.1 <= timeout
    ensures r.0 == ForcedShutdown <==> 0 <= timeout <= took
    ensures r.0 == CleanShutdown ==> r.1 == took
    ensures r.0 == ForcedShutdown ==> r.1 == timeout
  {
    if timeout >= 0 && took >= timeout then (ForcedShutdown, timeout) else (CleanShutdown, took)
  }

  /** The API routers the daemon serves. */
  datatype RouterKind =
    | CheckpointRouter | ContainerRouter | ImageRouter | SystemRouter | VolumeRouter | BuildRouter
    | SessionRouter | SwarmRouter | PluginRouter | DistributionRouter | NetworkRouter | DebugRouter
    | GrpcRouter

  /** A router, with whether its experimental routes were enabled. */
  datatype Router = Router(kind: RouterKind, experimentalEnabled: bool)

  /**
    The routers every daemon serves, in registration order; the checkpoint
    router precedes the container router so that its DELETE route is not
    masked.
  */
  const BaseRouters: seq<RouterKind> := [
    CheckpointRouter, ContainerRouter, ImageRouter, SystemRouter, VolumeRouter, BuildRouter,
    SessionRouter, SwarmRouter, PluginRouter, DistributionRouter, NetworkRouter, DebugRouter]

  /**
    `buildRouters`: the base routers, then the gRPC router when a build
    backend exists; with experimental features on, every router's
    experimental routes are enabled.
  */
  method BuildRouters(hasBuildBackend: bool, experimental: bool) returns (rs: seq<Router>)
    ensures |rs| == |BaseRouters| + (if hasBuildBackend then 1 else 0)
    ensures forall i :: 0 <= i < |BaseRouters| ==> rs[i].kind == BaseRouters[i]
    ensures hasBuildBackend ==> rs[|rs| - 1].kind == GrpcRouter
    ensures (exists i :: 0 <= i < |rs| && rs[i].kind == GrpcRouter) <==> hasBuildBackend
    ensures forall i :: 0 <= i < |rs| ==> rs[i].experimentalEnabled == experimental
  {
    rs := seq(|BaseRouters|, i requires 0 <= i < |BaseRouters| => Router(BaseRouters[i], false));
    if hasBuildBackend {
      rs := rs + [Router(GrpcRouter, false)];
    }
    if experimental {
      var i := 0;
      while i < |rs|
        invariant 0 <= i <= |rs|
        invariant |rs| == |BaseRouters| + (if hasBuildBackend then 1 else 0)
        invariant forall j :: 0 <= j < |BaseRouters| ==> rs[j].kind == BaseRouters[j]
        invariant hasBuildBackend ==> rs[|rs| - 1].kind == GrpcRouter
        invariant forall j :: 0 <= j < |rs| ==> rs[j].kind in BaseRouters || rs[j].kind == GrpcRouter
        invariant !hasBuildBackend ==> forall j :: 0 <= j < |rs| ==> rs[j].kind in BaseRouters
        invariant forall j :: 0 <= j < |rs| ==> rs[j].experimentalEnabled == (j < i)
      {
        rs := rs[i := rs[i].(experimentalEnabled := true)];
        i := i + 1;
      }
    }
    assert GrpcRouter !in BaseRouters;
  }

  /** A middleware of the API server, in the order requests pass through them. */
  datatype Middleware = ExperimentalMiddleware(enabled: bool) | VersionMiddleware(minAPIVersion: string) | AuthzMiddleware

  /** The API server's middleware chain (`apiserver.Server`). */
  class APIServer {
    var middlewares: seq<Middleware>

    constructor ()
      ensures middlewares == []
    {
      middlewares := [];
    }

    method UseMiddleware(m: Middleware)
      modifies this
      ensures middlewares == old(middlewares) + [m]
    {
      middlewares := middlewares + [m];
    }
  }

  /** The authorization middleware: the plugins it consults. */
  class Authorization {
    var plugins: seq<string>

    constructor (plugins: seq<string>)
      ensures this.plugins == plugins
    {
      this.plugins := plugins;
    }

    /** `SetPlugins`: replaces the plugins consulted. */
    method SetPlugins(plugins: seq<string>)
      modifies this
      ensures this.plugins == plugins
    {
      this.plugins := plugins;
    }
  }

  /**
    `initMiddlewares`: installs the experimental middleware, then the version
    middleware (whose construction may reject the minimum API version, in
    which case nothing more is installed), then the authorization middleware
    over the configured plugins, which it returns.
  */
  method InitMiddlewares(s: APIServer, cfg: Config, versionError: string -> Option<string>)
    returns (r: Result<Authorization, string>)
    modifies s
    ensures r.Ok? <==> versionError(cfg.minAPIVersion).None?
    ensures r.Err? ==> r.error == versionError(cfg.minAPIVersion).value &&
                       s.middlewares == old(s.middlewares) + [ExperimentalMiddleware(cfg.experimental)]
    ensures r.Ok? ==> fresh(r.value) && r.value.plugins == cfg.authorizationPlugins &&
                      s.middlewares == old(s.middlewares) + [ExperimentalMiddleware(cfg.experimental),
                                                             VersionMiddleware(cfg.minAPIVersion), AuthzMiddleware]
  {
    s.UseMiddleware(ExperimentalMiddleware(cfg.experimental));
    var err := versionError(cfg.minAPIVersion);
    if err.Some? {
      return Err(err.value);
    }
    s.UseMiddleware(VersionMiddleware(cfg.minAPIVersion));
    var authz := new Authorization(cfg.authorizationPlugins);
    s.UseMiddleware(AuthzMiddleware);
    r := Ok(authz);
  }
}
