# Docker daemon core, modelled in Dafny

This project models five pieces of the Docker Engine daemon (moby) and proves
what they promise:

- **The daemon command** (`daemon/command/daemon.go`) covers:
  - loading the configuration from flags and the configuration file;
  - the TLS posture checks and normalising the API hosts;
  - binding the listeners, with the deterrent delays for insecure TCP;
  - starting and stopping the daemon, with deferred clean-ups unwound in reverse;
  - reloading the configuration;
  - the containerd options, the routers and the middleware chain;
  - the process environment edits (OTLP defaults and proxy variables).
- **Containers** (`daemon/container.go`) covers:
  - looking containers up by ID, name or unique ID prefix;
  - creating the container object, with its default hostname and command line;
  - the dependent containers;
  - validating container and host configurations;
  - installing the host configuration.
- **Creating a container on Linux** (`daemon/create_unix.go`) covers:
  - mounting the container for the duration of the call;
  - defaulting the masked and read-only paths;
  - creating anonymous volumes;
  - copying image data into them.
- **The build API** (`daemon/server/router/build/build_routes.go`) covers:
  - reading build options from the request form;
  - the builder version;
  - the prune byte limits and cancellation;
  - error reporting in `postBuild`;
  - holding the response back until the request body has been read.
- **The userland proxy** (`libnetwork/portmapper/proxy_linux.go`) covers:
  - the proxy's command line;
  - the start handshake;
  - waiting for the process at most once.

The model follows the code's own form:

- Pure decision logic becomes functions with lemmas.
- Loops become methods with loop invariants, proved against specification functions.
- Objects the daemon updates in place become classes: the daemon CLI, configuration records, the buffered writer, the proxy command.
- Go map iteration, whose order is unspecified, becomes a loop that picks any remaining element.
- Foreign calls become function-typed parameters: parsers, validators, the filesystem, the volume service, process control and the network.
- Sleeps and timeouts become values.

| file | module | models |
|---|---|---|
| common.dfy | Common | Option, Result, Outcome, byte strings, first error of a loop |
| text.dfy | Text | `strings.Cut`, `strings.HasPrefix`, byte-wise string order, sorting without duplicates |
| cli_config.dfy | CliConfig | `loadDaemonCliConfig` and its TLS/CDI rules |
| listeners.dfy | Listeners | TLS checks, `normalizeHosts`, `loadListeners` |
| daemon_wiring.dfy | DaemonWiring | containerd options and start-up, shutdown deadline, routers, middlewares |
| process_env.dfy | ProcessEnv | OTLP defaults, service name, proxy environment |
| lifecycle.dfy | Lifecycle | `start`, `stop`, `reloadConfig`, `validateAuthzPlugins` |
| containers.dfy | Containers | daemon/container.go |
| create_unix.dfy | CreateUnix | daemon/create_unix.go |
| build_routes.dfy | BuildRoutes | build options, version, prune, cancel, `postBuild` |
| buffered_output.dfy | BufferedOutput | `wcf`, `rcNotifier`, `wrapOutputBufferedUntilRequestRead` |
| proxy.dfy | Proxy | libnetwork/portmapper/proxy_linux.go |

## Model

| member | source | states |
|---|---|---|
| Listeners.CheckTLSAuthOK | daemon/command/daemon.go:828-848 | Only an explicit TLS on with verification unset is refused. With TLS unset, the default decides. |
| Listeners.NewAPIServerTLSConfig | daemon/command/daemon.go:799-826 | A server TLS configuration exists iff TLS is explicitly on and the files load. It requires verified client certificates iff verification is not explicitly off. A load failure is wrapped as "invalid TLS configuration". |
| Listeners.EffectiveHosts | daemon/command/daemon.go:673-680 | An empty host list is parsed as one empty entry. A non-empty list is parsed as it is. |
| Listeners.ParseAll | daemon/command/daemon.go:690-694 | Succeeds iff every host parses, giving the i-th parsed host for the i-th entry. Otherwise it returns the error of the first host that fails. |
| Listeners.NormalizedHosts | daemon/command/daemon.go:673-704 | Succeeds iff every effective host parses. The result is strictly sorted, so duplicate-free, and holds exactly the hosts some entry parses to. |
| Listeners.NormalizeHosts | daemon/command/daemon.go:673-704 | The loop returns exactly `NormalizedHosts`: the first parse error, or the parsed hosts with duplicates dropped, sorted. |
| Listeners.DeterrentDelay | daemon/command/daemon.go:868-907 | No sleep for non-TCP or verified TCP, and one second otherwise. A further fifteen seconds applies iff the TLS posture is not an explicit choice and the host is neither "localhost" nor loopback. An unsplittable address is an error exactly in that case, reading "error parsing tcp address: " followed by the splitter's error. |
| Listeners.ResolveEntryFacts | daemon/command/daemon.go:861-920 | An entry without "://" is a bad-format error. A resolved entry reports the address after "://", the deterrent delay for it, a reserved TCP port and the sockets bound for it. |
| Listeners.AddrsDelaysAt | daemon/command/daemon.go:919-920 | The k-th reported address and delay are those of the k-th host. |
| Listeners.LoadListeners | daemon/command/daemon.go:850-924 | An empty host list is an error. Succeeds iff every host resolves, and otherwise returns the first failure with no partial result. On success there is one address and one delay per host, and the sockets are in host order. |
| Listeners.PostureDelay | daemon/command/daemon.go:799-848 | Across the TLS postures, a TCP host gets no delay with verified TLS and one second when TLS or verification is explicitly off. With TLS unset it gets sixteen seconds iff it is remote. |
| Listeners.VerifiedTLSNeverDelays | daemon/command/daemon.go:869-870 | With verified client certificates, no resolved host is delayed. |
| CliConfig.ApplyTLSFlags | daemon/command/daemon.go:577-584 | An explicit `--tlsverify` sets verification and switches TLS on. An explicit `--tls` alone sets TLS. Nothing else changes. |
| CliConfig.FlagConfig | daemon/command/daemon.go:550-600 | The pre-merge configuration is the flag configuration with only debug, hosts, log level and format, minimum API version and the TLS fields replaced. It carries a valid `DOCKER_MIN_API_VERSION` override. TLS stays as given unless `--tlsverify` or `--tls` was changed, and verification unless `--tlsverify` was. It takes the certificate file names, or empty names without TLS options. |
| CliConfig.DeriveTLS | daemon/command/daemon.go:637-644 | A `tlsverify` set in the file switches TLS on, and unset verification inherits TLS. Only the TLS pair changes. |
| CliConfig.DeriveTLSIdempotent | daemon/command/daemon.go:637-644 | Completing the TLS pair twice is the same as once. |
| CliConfig.NormalizeCDISpecDirs | daemon/command/daemon.go:651-662 | The result is never a single empty entry. An empty list comes only from an empty list. |
| CliConfig.CdiSpecDirsFollowFeature | daemon/command/daemon.go:651-662 | A disabled `cdi` feature clears the directories. When enabled: unset gives the defaults, a single empty entry gives none, and anything else is kept. |
| CliConfig.FinishConfig | daemon/command/daemon.go:620-668 | Succeeds iff the hosts normalise, the configuration validates and the labels are conflict-free, and fails in that order with each error. The result has the hosts of `NormalizedHosts` and the conflict-free labels, the derived TLS pair and the settled CDI directories. Every other field is kept. |
| CliConfig.LoadDaemonCliConfig | daemon/command/daemon.go:550-669 | Succeeds iff the flags were parsed, `DOCKER_MIN_API_VERSION` is valid, the configuration file merges, and the merged configuration passes `FinishConfig`. It fails in order on:<br>• unparsed flags;<br>• an invalid `DOCKER_MIN_API_VERSION`;<br>• a configuration-file error other than a missing default file;<br>• a host, validation or label error.<br>A loaded configuration has the normalised hosts and conflict-free labels of the merged configuration, and a complete TLS pair. Its CDI directories are never a single empty entry and exist only while CDI is enabled. Without a file it keeps the flag values. |
| CliConfig.LoadedTLSAuthOK | daemon/command/daemon.go:828-848 | After loading, the TLS authentication check fails only when TLS was never configured. |
| DaemonWiring.ContainerdDaemonOpts | daemon/command/daemon.go:764-797 | The options are, in order: the log level ("debug" when debugging), the log format iff one is set, and CRI disabled iff not requested. |
| DaemonWiring.InitializeContainerd | daemon/command/daemon.go:1031-1056 | A running system containerd is used unmanaged. Otherwise a managed one is started with `ContainerdDaemonOpts`. Probe and start failures carry their context. |
| DaemonWiring.ShutdownDaemon | daemon/command/daemon.go:529-548 | A non-negative timeout bounds the wait. The shutdown is forced iff the timeout is reached. A negative timeout waits for as long as shutdown takes. |
| DaemonWiring.BuildRouters | daemon/command/daemon.go:706-747 | The base routers come in registration order, checkpoint before container. The gRPC router comes last iff there is a build backend. The experimental loop enables experimental routes on every router iff experimental is on. |
| DaemonWiring.InitMiddlewares | daemon/command/daemon.go:749-762 | Installs the experimental, version and authorization middlewares in that order. A rejected minimum API version stops after the first, with its error. The authorization middleware consults the configured plugins. |
| ProcessEnv.OTLPDefaultsFacts | daemon/command/daemon.go:374-391 | Without a general OTLP protocol, the traces and metrics protocols end up non-empty. Non-empty values and every other variable are kept. Applying the defaults is idempotent. |
| ProcessEnv.ProxyEnvFacts | daemon/command/daemon.go:1005-1018 | Configuring proxies overrides exactly both spellings of each configured proxy and keeps the rest. Doing it twice is the same as once. |
| ProcessEnv.Environment.SetOTLPProtoDefault | daemon/command/daemon.go:374-391 | The environment becomes `OTLPDefaults` of the old one. |
| ProcessEnv.Environment.SetServiceNameDefault | daemon/command/daemon.go:229-232 | The service name is set to the executable's name only when the variable is absent. |
| ProcessEnv.Environment.OverrideProxyEnv | daemon/command/daemon.go:1020-1029 | Sets the variable. Reports an override iff a different non-empty value was there. |
| ProcessEnv.Environment.ConfigureProxyEnv | daemon/command/daemon.go:1005-1018 | The environment becomes `ProxyEnv` of the old one. |
| Lifecycle.ValidateAuthzPlugins | daemon/command/daemon.go:952-959 | Succeeds iff every requested plugin is found. Otherwise returns the first failure, in order. |
| Lifecycle.DaemonCLI.Stop | daemon/command/daemon.go:515-524 | Closes the shutdown channel on the first call only, so it is closed exactly once. |
| Lifecycle.DaemonCLI.ReloadConfig | daemon/command/daemon.go:470-513 | A missing authorization plugin is fatal. A configuration the daemon refuses changes nothing. Only an accepted one replaces the plugins and, when the file sets `debug`, switches debug logging to match. |
| Lifecycle.FirstServeError | daemon/command/daemon.go:324-343 | The first serve result that is not `ErrServerClosed`, if any. |
| Lifecycle.FirstServeErrorIsFirst | daemon/command/daemon.go:324-343 | A reported error is some listener's result, and every earlier result was `ErrServerClosed`. |
| Lifecycle.FirstServeErrorAppend | daemon/command/daemon.go:335-338 | A later result never displaces an error already found. |
| Lifecycle.Unwind | daemon/command/daemon.go:148-222 | Deferred clean-ups run in reverse: the i-th action performed is that of the i-th clean-up from the end. |
| Lifecycle.UnwindFacts | daemon/command/daemon.go:148-222 | Deferred clean-ups run last-in first-out and perform only clean-ups. The server is drained or closed iff the server-exit clean-up was deferred. |
| Lifecycle.FirstFailureUnique | daemon/command/daemon.go:105-315 | The first failing step is unique and means not every step passed. |
| Lifecycle.RunStages | daemon/command/daemon.go:105-315 | Steps run in order up to the first failure, which it returns. The actions and clean-ups are exactly those of the steps reached. The actions are step runs and the containerd-init cancel. Readiness preparation ran iff its step was reached, and then the server-exit clean-up is deferred. The pidfile removal is deferred iff the pidfile was written, and it is then the first clean-up. |
| Lifecycle.StepsUpToShape | daemon/command/daemon.go:105-228 | The actions up to a step are runs of earlier steps and the containerd-init cancel. Readiness preparation ran iff that step was reached. |
| Lifecycle.DefersUpToShape | daemon/command/daemon.go:140-210 | Only pidfile writing and containerd initialisation defer clean-ups. The clean-ups deferred so far are the pidfile's, then containerd's, each once its step was passed. |
| Lifecycle.TeardownAtExtend | daemon/command/daemon.go:346-356 | The teardown sequence stays in place when more actions follow. |
| Lifecycle.AfterStepsFacts | daemon/command/daemon.go:316-366 | After routers and readiness, the i-th listener is served, then the teardown runs in one piece, starting with the cluster clean-up. OTEL is shut down iff asked. Nothing in it runs a step, drains or closes the server, or removes the pidfile. |
| Lifecycle.SuccessTrace | daemon/command/daemon.go:316-366 | After successful steps:<br>• every listener is served;<br>• the teardown runs in one piece;<br>• OTEL is shut down iff no serve error;<br>• the cluster is cleaned up;<br>• only the given steps ran;<br>• nothing drains or closes the server or removes the pidfile before the clean-ups. |
| Lifecycle.ClosingTrace | daemon/command/daemon.go:148-222 | Clean-ups drain the server iff `stop` was called and close it iff not. One of the two happens whenever the server-exit clean-up was deferred. The pidfile removal is the very last action. |
| Lifecycle.ServingTraceServes | daemon/command/daemon.go:316-366 | A successful start tears down in one piece, serves every listener and shuts OTEL down iff no serve error. |
| Lifecycle.ServingTraceCloses | daemon/command/daemon.go:205-222 | A successful start drains or closes the API server as `stop` decides, and removes the pidfile last. |
| Lifecycle.ServeAndTearDown | daemon/command/daemon.go:320-366 | The returned error is the first serve error, wrapped as "shutting down due to ServeAPI error". The actions are routers, readiness, serving, teardown, and OTEL shutdown only without an error. |
| Lifecycle.StartFailed | daemon/command/daemon.go:105-315 | A failed step's error is wrapped as the daemon wraps it. The actions are the steps done, then the reverse of the clean-ups deferred so far. The pidfile is removed iff its removal was deferred. |
| Lifecycle.StartServing | daemon/command/daemon.go:316-368 | A start whose steps all passed runs its steps, serves, tears down and then unwinds its clean-ups, with the facts of `ServingTraceServes` and `ServingTraceCloses`. The pidfile is removed iff its removal was deferred. |
| Lifecycle.Start | daemon/command/daemon.go:105-368 | On the first failing step, the wrapped error is returned and the actions are the steps up to it, then the unwound clean-ups of those steps. Otherwise the actions are all steps, serving and teardown, then the unwound clean-ups. The first serve error is returned, and the server is drained iff `stop` was called and closed iff not. The pidfile is removed iff it was written. |
| Containers.PrefixMatches | daemon/container.go:59-62 | Holds exactly the replica IDs that start with the prefix, in order. |
| Containers.GetByPrefix | daemon/container.go:59-62 | Finds an ID iff exactly one replica ID has the prefix. |
| Containers.FullNameIdempotent | daemon/container.go:185-202 | Normalising a name to its "/"-prefixed form is idempotent. |
| Containers.FullName | daemon/container.go:189-192 | A name becomes "/"-prefixed: it is kept when it already starts with "/", and gets "/" in front otherwise. |
| Containers.GetByName | daemon/container.go:185-202 | The empty name is an error. A name is resolved through the full-name index, and the ID it finds must be live, each with its message. |
| Containers.GetContainer | daemon/container.go:43-75 | An empty reference is invalid. Otherwise it tries, in order, a live full ID, an exact name, then a unique prefix. The container the prefix finds must still be live. |
| Containers.EntrypointAndArgs | daemon/container.go:177-182 | The path followed by the arguments is the entrypoint followed by the command. |
| Containers.NewContainer | daemon/container.go:138-175 | Succeeds iff generating the ID and name succeeds and, for a missing hostname in host network mode, `os.Hostname` succeeds. A missing hostname becomes the host's name in host network mode and the ID's first 12 characters otherwise. The command line is split as `EntrypointAndArgs`. |
| Containers.ConnectedContainer | daemon/container.go:215-218 | The container a `container:<name>` network mode names is the text after the prefix. |
| Containers.DependentContainers | daemon/container.go:212-227 | The network-mode container, if any, then the links. Nothing at all if that container is missing. |
| Containers.ValidateHealthCheck | daemon/container.go:357-377 | Valid iff each duration is unset or at least 1ms and retries are not negative. The first failure is reported, in check order. |
| Containers.ValidateCapabilities | daemon/container.go:345-354 | Checks the added capabilities, then the dropped ones, each error prefixed by its list. |
| Containers.ImageWarningsCount | daemon/container.go:309-314 | There is one warning per image mount, and each is the image-mount warning. |
| Containers.HostConfigCheckFacts | daemon/container.go:299-343 | Fails iff some part is rejected. AutoRemove with a restart policy is rejected first, with no warnings. An empty annotation key is always rejected. An accepted configuration gets one warning per image mount. |
| Containers.ValidateHostConfig | daemon/container.go:299-343 | The loop's warnings and error equal `HostConfigCheck`. |
| Containers.MountsExaminedAt | daemon/container.go:309-319 | The mount loop stops at the first rejected mount or passes all of them. |
| Containers.TranslateWorkingDir | daemon/container.go:397-407 | An empty directory is kept. A relative one is refused and left unchanged. An absolute one is cleaned. |
| Containers.ValidateContainerConfig | daemon/container.go:278-297 | A nil configuration is fine. Otherwise the error is exactly `ContainerConfigError`: the working directory, then the stop signal, then the first bad environment entry, then the health check. |
| Containers.ContainerConfigErrorAccepted | daemon/container.go:278-297 | There is no first error iff the working directory, stop signal, every environment entry and the health check are each valid. |
| Containers.VerifyContainerSettings | daemon/container.go:259-276 | An invalid container configuration returns exactly `ContainerConfigError`, with no warnings. The configuration is changed only by cleaning an absolute working directory. Host-config warnings are kept even when it fails. Platform warnings are appended. |
| Containers.SetHostConfig | daemon/container.go:235-255 | A failed mount registration returns its error and changes nothing. Otherwise the registered mount points are installed. A failed link registration then returns its error and leaves the host configuration unchanged. Otherwise an empty network mode becomes "default" and the configuration is installed. |
| CreateUnix.DefaultedPaths | daemon/create_unix.go:36-43 | The masked and read-only paths become the defaults iff they are unset and the container is not privileged. |
| CreateUnix.ApplyPathDefaults | daemon/create_unix.go:36-43 | Sets `DefaultedPaths` on the host configuration and mirrors it into the container's own. |
| CreateUnix.AddAnonymousVolume | daemon/create_unix.go:55-74 | One loop iteration for a destination with no mount. Its error is exactly `VolumeError`. A volume is created once the path resolves to no existing file and the service succeeds, and it is registered only if relabelling succeeds. |
| CreateUnix.CreateAnonymousVolumes | daemon/create_unix.go:45-75 | Succeeds iff every declared volume already has a mount or gets a volume without error. Otherwise the error is `VolumeError` of a declared destination that had no mount: the resource path, an existing non-directory, the volume service, then relabelling. Existing mounts are kept, and each new mount point is a registered volume at a destination that had none. A registration follows right after its volume's creation. A created volume that is not registered is one whose relabelling failed. On success every declared destination has a mount. |
| CreateUnix.OverExistingFileRefused | daemon/create_unix.go:60-63 | A declared volume over an existing file makes the loop fail, and no volume is created there. |
| CreateUnix.VolumeTraceAppend | daemon/create_unix.go:65-74 | Appending a new volume effect keeps every effect distinct and each registration right after its creation. |
| CreateUnix.PopulateVolume | daemon/create_unix.go:98-131 | Nothing is done when the destination does not exist or setup finds no volume. After setup, the data is copied and cleanup runs whatever the copy reports. |
| CreateUnix.PopulateVolumes | daemon/create_unix.go:81-96 | Only volume mounts that copy data are considered. Succeeds iff each populates without error. A returned error is one such mount's error. |
| CreateUnix.WhileMounted | daemon/create_unix.go:30-76 | A working-directory failure changes nothing. Otherwise paths are defaulted, volumes are created, and populating follows only if that succeeded. Succeeds iff the working directory is set up, `VolumesAccepted` holds, and every eligible final mount point populates. The error is a volume error when volumes fail, and a populate error otherwise. Every volume effect precedes every populate effect. |
| CreateUnix.MountedTrace | daemon/create_unix.go:31-76 | The effects while mounted are the working directory, then the volume effects, then the populate effects. Every volume effect comes before every populate effect. |
| CreateUnix.CreateContainerOSSpecificSettings | daemon/create_unix.go:25-77 | A failed mount does nothing else. Otherwise the container is unmounted on every way out, as the last effect. Succeeds iff the mount and working directory succeed, `VolumesAccepted` holds, and every eligible mount point populates. The volume and populate errors and the effect order are as in `WhileMounted`. |
| BuildRoutes.ParseVersion | daemon/server/router/build/build_routes.go:162-171 | Accepts exactly "1" and "2", mapping each to its builder version and back. Anything else is an invalid parameter "invalid version %q". |
| BuildRoutes.OptionsError | daemon/server/router/build/build_routes.go:65-157 | There is no error iff `OptionsAccepted`: no security options, and from API 1.40 the outputs, then the shared memory size, isolation, ulimits, build arguments, labels, cache sources and builder version each acceptable when given. Security options are refused first, and bad outputs next, as "invalid outputs specified". An unknown builder version is always an error. The only error not classed invalid-parameter is a malformed shared memory size. |
| BuildRoutes.ReadOptions | daemon/server/router/build/build_routes.go:39-90 | `Remove` holds iff `forcerm` is set, `rm` is absent, or `rm` is true. Platform is read only from API 1.32 and outputs only from 1.40. The builder defaults to V1. `q` and `squash` are read as booleans. |
| BuildRoutes.NewImageBuildOptions | daemon/server/router/build/build_routes.go:38-160 | Succeeds iff `OptionsAccepted`. Combines the above: the security-option refusal, the `Remove` rule, API-version gating of platform and outputs, the default and parsed builder version, and which errors are unclassified. |
| BuildRoutes.ParseBytes | daemon/server/router/build/build_routes.go:187-197 | An absent field is 0 bytes. A non-integer is an invalid parameter naming the field and its value. |
| BuildRoutes.PruneOptionsFor | daemon/server/router/build/build_routes.go:173-231 | A filters error is passed on as it is; absent filters decode to none. From API 1.48, the reserved space is `reserved-space`, falling back to `keep-storage` only when that is 0, and the maximum used and minimum free space are read. Before 1.48, only `keep-storage` is read. |
| BuildRoutes.NewLimitsIgnoredBefore148 | daemon/server/router/build/build_routes.go:224-231 | Before API 1.48, the reserved, maximum-used and minimum-free fields cannot change the outcome. |
| BuildRoutes.KeepStorageIgnoredWhenReserved | daemon/server/router/build/build_routes.go:200-210 | From API 1.48, `keep-storage` cannot change the outcome once `reserved-space` is non-zero. |
| BuildRoutes.PostCancel | daemon/server/router/build/build_routes.go:240-249 | A missing ID is an invalid parameter. Otherwise the outcome is the backend's cancellation. |
| BuildRoutes.Errf | daemon/server/router/build/build_routes.go:274-290 | In quiet mode, buffered output is written first. The raw error is returned iff nothing was flushed; otherwise the formatted error is written and nil is returned. |
| BuildRoutes.StreamBuild | daemon/server/router/build/build_routes.go:302-333 | On success the response is the image ID in quiet mode and the progress otherwise. On failure the raw error is returned iff nothing reached the client. The response is always the progress, plus the formatted error iff flushed. |
| BuildRoutes.PostBuild | daemon/server/router/build/build_routes.go:251-334 | An options error and the squash refusal come before any output, so they are returned with nothing written. Otherwise behaves as `StreamBuild`. |
| BufferedOutput.Wcf.Write | daemon/server/router/build/build_routes.go:458-467 | Before notification, bytes are buffered and nothing reaches the wrapped writer. Afterwards they pass straight through. |
| BufferedOutput.Wcf.Flush | daemon/server/router/build/build_routes.go:440-449 | Always records a flush request. Forwards it only once ready. |
| BufferedOutput.Wcf.Flushed | daemon/server/router/build/build_routes.go:451-456 | Reports whether a flush was ever requested. |
| BufferedOutput.Wcf.Notify | daemon/server/router/build/build_routes.go:469-481 | The first call copies the buffer once, in order, flushes if a flush was requested and sets ready. Later calls change nothing. The wrapped writer then holds every write in order. |
| BufferedOutput.RcNotifier.Read | daemon/server/router/build/build_routes.go:418-424 | Returns the next bytes of the body. At its end it returns the body's error and notifies the writer. |
| BufferedOutput.RcNotifier.Close | daemon/server/router/build/build_routes.go:426-429 | Notifies the writer before closing, and returns the close error. |
| BufferedOutput.Wrap | daemon/server/router/build/build_routes.go:388-410 | An empty body leaves the body and writer unwrapped. Otherwise a notifier and a not-yet-ready buffering writer are linked. |
| Proxy.ParseDecimalDigits | libnetwork/portmapper/proxy_linux.go:33-35 | The decimal digits of a port read back as the port. |
| Proxy.ItoaRoundTrip | libnetwork/portmapper/proxy_linux.go:33-35 | `Itoa` round-trips, sign included. |
| Proxy.ProxyArgs | libnetwork/portmapper/proxy_linux.go:29-36 | The path, then the protocol, host IP, host port, container IP and container port, each after its flag, in that fixed order. |
| Proxy.ProxyPath | libnetwork/portmapper/proxy_linux.go:20-27 | A configured path is used verbatim. Otherwise `docker-proxy` is looked up and a lookup failure is the error. |
| Proxy.StatusBytesOK | libnetwork/portmapper/proxy_linux.go:88-91 | The zero-padded two-byte status is "0\n" iff the first read returned exactly "0\n". |
| Proxy.Handshake | libnetwork/portmapper/proxy_linux.go:86-109 | Succeeds iff the status is "0\n" within 16 seconds. Otherwise the error carries the rest of the pipe, the error reading it, or the timeout. |
| Proxy.ProxyCommand.Start | libnetwork/portmapper/proxy_linux.go:58-110 | A pipe or start failure is returned and leaves no process. Otherwise the process runs and the result is the handshake. |
| Proxy.ProxyCommand.BackgroundWait | libnetwork/portmapper/proxy_linux.go:70-84 | Waits and records the error only if nobody waited yet. Waiting happens at most once. |
| Proxy.ProxyCommand.Stop | libnetwork/portmapper/proxy_linux.go:112-135 | With no process it returns nil. A signal failure is returned before any wait. After the background waiter ran, the cached error is returned. Otherwise it waits, at most once in all. |
| Proxy.NewProxyCommand | libnetwork/portmapper/proxy_linux.go:19-47 | Fails iff the binary cannot be found. Otherwise it is a fresh, not-started command with `ProxyPath` and `ProxyArgs`. |

## Left out

- I/O, concurrency and time are not executed. This covers sockets, the filesystem, processes, signals, goroutines, mutexes and sleeps. Sleeps and timeouts are returned as values. Foreign parsers, validators and services are function-typed parameters. Logging is left out.
- The Windows branches of every file are left out.
- `setDefaultOptions`, `configureDaemonLogs`, `initBuildkit`, `createAndStartCluster`, `systemContainerdRunning` and `newDaemonCLI` are not modelled. Each is either a parameter or outside the listed behaviour.
- `config.Reload`, `d.Reload`, `config.MergeDaemonConfigurations` and `dopts.ParseHost` are parameters. `DefaultTLSValue` is defined outside the modelled files; the model fixes it at false.
- Lifecycle.Start: serve results are given in the order the servers finish. The goroutines, the wait group and the 5-second grace timer of the drain are not modelled. The OTEL shutdown error is only logged, so it is not part of the result.
- DaemonWiring.ShutdownDaemon: the wait is measured in whole seconds, and cancelling the context is not modelled.
- The configuration is a value, so `opts.daemonConfig` and the loaded configuration do not alias.
- daemon/container/view.go is not part of this model. For that reason, Containers.GetByPrefix models the replica's prefix search as a unique-prefix match.
- `load`, `Register`/`register`, `setSecurityOptions` and `validatePortBindings` are outside the modelled lines or given as oracles.
- Containers.SetHostConfig: the host configuration pointer that the caller keeps is not modelled as aliased. `registerMountPoints` and `registerLinks` are oracles; their results are parameters.
- CreateUnix.CreateAnonymousVolumes: the volume service's answer is keyed by the destination, and `HasMountFor` is modelled as the mount points plus the tmpfs mounts. The OCI default masked and read-only paths are parameters.
- BuildRoutes: JSON-decoded options are kept as their accepted text, not as decoded Go values.
- BuildRoutes: `getAuthConfigs`, `buildProgressWriter` and the backend's build are left out. The build is represented by its progress writes and its result.
- BuildRoutes: `ioutils.WriteFlusher` is modelled as flushing on every write.
- BuildRoutes.BoolValue lower-cases ASCII letters only. Go's Unicode lower-casing gives the same answer for the five words compared with. `TrimSpace` uses the full Unicode space set.
- BuildRoutes.AtLeast compares API versions as major.minor pairs.
- BuildRoutes: `ParseForm` errors are not modelled; the form arrives already parsed.
- BufferedOutput.RcNotifier.Read: a zero-length read returns nothing and no error. A read returns at most the bytes asked for, with no short reads in between. Errors of the wrapped writer are not modelled.
- Proxy.Handshake: a report at exactly 16 seconds is treated as the timeout, because Go's `select` may pick either case. The status bytes print as one character per byte.
- Proxy.ProxyCommand.Stop: the model follows the code, which does not store the error of a wait that `Stop` performs itself.
- `net.IP.String` is not modelled; the endpoints carry the address text.
- Proxy.ProxyCommand.Start: the background waiter is a separate method, because it runs concurrently after a successful start.
