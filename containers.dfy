/**
  Looking containers up and validating their configuration
  (daemon/container.go). The daemon keeps two stores: the live store of
  container objects, keyed by ID, and a replica database used for name and
  ID-prefix searches; both become values here. The configuration records a
  container is created from are objects the daemon updates in place, so
  they are classes. Parsers and validators of other packages (mount
  configurations, extra hosts, port specifications, capabilities, signals,
  environment entries, `filepath.Clean`) are parameters.
*/
module Containers {
  import opened Common
  import opened Text

  // ---------------------------------------------------------------------
  // Stores and lookup
  // ---------------------------------------------------------------------

  /**
    What the daemon knows about its containers: the IDs in the live store,
    the replica's index from full names ("/name") to IDs, and the IDs the
    replica holds, searched by prefix.
  */
  datatype Stores = Stores(live: set<string>, names: map<string, string>, replica: seq<string>)

  /** Why a container lookup failed. */
  datatype LookupError =
    | InvalidIdentifier(ref: string)   // the empty reference
    | ContainerNotFound(ref: string)   // found in the replica, missing from the live store
    | NoSuchPrefix(ref: string)        // no ID starts with the reference
    | AmbiguousPrefix(ref: string)     // several IDs start with it

  /** The IDs of the replica that start with `prefix`, in the replica's order. */
  function PrefixMatches(ids: seq<string>, prefix: string): (r: seq<string>)
    ensures forall id :: id in r <==> id in ids && HasPrefix(id, prefix)
    ensures |r| <= |ids|
  {
    if ids == [] then []
    else (if HasPrefix(ids[0], prefix) then [ids[0]] else []) + PrefixMatches(ids[1..], prefix)
  }

  /** The replica's prefix search: the only ID with the prefix, if there is exactly one. */
  function GetByPrefix(replica: seq<string>, prefix: string): (r: Result<string, LookupError>)
    ensures r.Ok? <==> |PrefixMatches(replica, prefix)| == 1
    ensures r.Ok? ==> r.value in replica && HasPrefix(r.value, prefix) &&
                      forall id :: id in replica && HasPrefix(id, prefix) ==> id == r.value
  {
    var matches := PrefixMatches(replica, prefix);
    if |matches| == 0 then Err(NoSuchPrefix(prefix))
    else if |matches| > 1 then Err(AmbiguousPrefix(prefix))
    else
      assert matches[0] in matches;
      Ok(matches[0])
  }

  /** The full name a name is looked up under: with a leading '/' added when it lacks one. */
  function FullName(name: string): (r: string)
    requires name != ""
    ensures r != "" && r[0] == '/'
    ensures name[0] == '/' ==> r == name
    ensures name[0] != '/' ==> r == "/" + name
  {
    if name[0] != '/' then "/" + name else name
  }

  /** Normalising a name twice is the same as once. */
  lemma FullNameIdempotent(name: string)
    requires name != ""
    ensures FullName(FullName(name)) == FullName(name)
  {
  }

  /**
    `GetByName`: rejects the empty name, resolves the full name through the
    replica's name index and returns the live container with that ID.
  */
  function GetByName(st: Stores, name: string): (r: Result<string, string>)
    ensures name == "" ==> r == Err("No container name supplied")
    ensures name != "" ==> (r.Ok? <==> FullName(name) in st.names && st.names[FullName(name)] in st.live)
    ensures r.Ok? ==> name != "" && r.value == st.names[FullName(name)] && r.value in st.live
    ensures name != "" && FullName(name) !in st.names ==> r == Err("Could not find entity for " + name)
    ensures name != "" && FullName(name) in st.names && st.names[FullName(name)] !in st.live ==>
      r == Err("Could not find container for entity id " + st.names[FullName(name)])
  {
    if name == "" then Err("No container name supplied")
    else
      var fullName := FullName(name);
      if fullName !in st.names then Err("Could not find entity for " + name)
      else
        var id := st.names[fullName];
        if id !in st.live then Err("Could not find container for entity id " + id)
        else Ok(id)
  }

  /**
    `GetContainer`: an empty reference is invalid; otherwise a full ID of a
    live container wins, then an exact name, then a unique ID prefix, whose
    container must still be in the live store.
  */
  function GetContainer(st: Stores, ref: string): (r: Result<string, LookupError>)
    ensures ref == "" ==> r == Err(InvalidIdentifier(ref))
    ensures r.Ok? ==> r.value in st.live
    ensures ref != "" && ref in st.live ==> r == Ok(ref)
    ensures ref != "" && ref !in st.live && GetByName(st, ref).Ok? ==> r == Ok(GetByName(st, ref).value)
    ensures ref != "" && ref !in st.live && GetByName(st, ref).Err? ==>
      (r.Ok? <==> GetByPrefix(st.replica, ref).Ok? && GetByPrefix(st.replica, ref).value in st.live)
    ensures r.Ok? ==>
      r.value == ref || GetByName(st, ref) == Ok(r.value) ||
      (HasPrefix(r.value, ref) && PrefixMatches(st.replica, ref) == [r.value])
    ensures (ref != "" && ref !in st.live && GetByName(st, ref).Err? && GetByPrefix(st.replica, ref).Ok? &&
             GetByPrefix(st.replica, ref).value !in st.live) ==> r == Err(ContainerNotFound(ref))
  {
    if ref == "" then Err(InvalidIdentifier(ref))
    else if ref in st.live then Ok(ref)
    else
      var byName := GetByName(st, ref);
      if byName.Ok? then Ok(byName.value)
      else
        match GetByPrefix(st.replica, ref)
        case Err(e) => Err(e)
        case Ok(id) => if id in st.live then Ok(id) else Err(ContainerNotFound(ref))
  }

  // ---------------------------------------------------------------------
  // Creating a container
  // ---------------------------------------------------------------------

  /** The length of a generated container ID: 32 random bytes in hexadecimal. */
  const IDLength: nat := 64

  /** A generated container ID. */
  type ContainerID = s: string | |s| == IDLength witness seq(IDLength, _ => '0')

  /** The number of leading ID characters a default hostname takes. */
  const ShortIDLength: nat := 12

  /**
    `getEntrypointAndArgs`: the command line is the entrypoint followed by
    the command; its first word is the path run and the rest are its
    arguments. Without an entrypoint the command must not be empty.
  */
  function EntrypointAndArgs(entrypoint: seq<string>, cmd: seq<string>): (r: (string, seq<string>))
    requires entrypoint != [] || cmd != []
    ensures [r.0] + r.1 == entrypoint + cmd
    ensures r.0 == (if entrypoint != [] then entrypoint[0] else cmd[0])
  {
    if entrypoint == [] then (cmd[0], cmd[1..])
    else (entrypoint[0], entrypoint[1..] + cmd)
  }

  /** A network mode names another container's network namespace: "container:<ref>". */
  predicate IsContainerMode(mode: string) {
    HasPrefix(mode, "container:")
  }

  /** The container a "container:<ref>" network mode refers to. */
  function ConnectedContainer(mode: string): (r: string)
    requires IsContainerMode(mode)
    ensures "container:" + r == mode
  {
    mode[|"container:"|..]
  }

  const HostNetworkMode: string := "host"
  const DefaultNetworkMode: string := "default"

  /** The parts of a container's configuration the daemon reads and updates in place. */
  class ContainerConfig {
    var hostname: string
    var entrypoint: seq<string>
    var cmd: seq<string>
    var workingDir: string
    var stopSignal: string
    var env: seq<string>
    var healthcheck: Option<HealthConfig>
    /** The keys of the anonymous-volume set (`Volumes`). */
    var volumes: set<string>
  }

  /** A new container object as `newContainer` returns it. */
  datatype BaseContainer = BaseContainer(id: string, name: string, path: string, args: seq<string>)

  /**
    `newContainer`: generates the ID and name, fills in a missing hostname
    (the host's own name in host network mode, the ID's first 12 characters
    otherwise) and splits the command line. Generating the ID and reading the
    host's name may fail.
  */
  method NewContainer(config: ContainerConfig, networkMode: string,
                      generated: Result<(ContainerID, string), string>, osHostname: Result<string, string>)
    returns (r: Result<BaseContainer, string>)
    requires config.entrypoint != [] || config.cmd != []
    modifies config
    ensures generated.Err? ==> r == Err(generated.error) && config.hostname == old(config.hostname)
    ensures r.Ok? <==>
      generated.Ok? && !(old(config.hostname) == "" && networkMode == HostNetworkMode && osHostname.Err?)
    ensures old(config.hostname) != "" ==> config.hostname == old(config.hostname)
    ensures generated.Ok? && old(config.hostname) == "" && networkMode != HostNetworkMode ==>
      config.hostname == generated.value.0[..ShortIDLength] && HasPrefix(generated.value.0, config.hostname)
    ensures generated.Ok? && old(config.hostname) == "" && networkMode == HostNetworkMode ==>
      (r.Err? <==> osHostname.Err?) &&
      (osHostname.Err? ==> r.error == osHostname.error) &&
      (osHostname.Ok? ==> config.hostname == osHostname.value)
    ensures r.Ok? ==>
      generated.Ok? && r.value.id == generated.value.0 && r.value.name == generated.value.1 &&
      [r.value.path] + r.value.args == config.entrypoint + config.cmd
    ensures config.entrypoint == old(config.entrypoint) && config.cmd == old(config.cmd)
  {
    if generated.Err? {
      return Err(generated.error);
    }
    var (id, name) := generated.value;
    if config.hostname == "" {
      if networkMode == HostNetworkMode {
        if osHostname.Err? {
          return Err(osHostname.error);
        }
        config.hostname := osHostname.value;
      } else {
        config.hostname := id[..ShortIDLength];
      }
    }
    var (path, args) := EntrypointAndArgs(config.entrypoint, config.cmd);
    r := Ok(BaseContainer(id, name, path, args));
  }

  /**
    `GetDependentContainers`: the container whose network this one joins,
    if any, followed by the containers it links to. When that network
    container cannot be found nothing is returned, not even the links.
  */
  function DependentContainers(st: Stores, networkMode: string, linkChildren: seq<string>): (r: seq<string>)
    ensures !IsContainerMode(networkMode) ==> r == linkChildren
    ensures IsContainerMode(networkMode) && GetContainer(st, ConnectedContainer(networkMode)).Err? ==> r == []
    ensures IsContainerMode(networkMode) && GetContainer(st, ConnectedContainer(networkMode)).Ok? ==>
      |r| >= 1 && r[0] == GetContainer(st, ConnectedContainer(networkMode)).value && r[0] in st.live && r[1..] == linkChildren
  {
    if IsContainerMode(networkMode) then
      match GetContainer(st, ConnectedContainer(networkMode))
      case Err(_) => []
      case Ok(id) => [id] + linkChildren
    else linkChildren
  }

  // ---------------------------------------------------------------------
  // Validation
  // ---------------------------------------------------------------------

  /** `MinimumDuration`: one millisecond, in nanoseconds. */
  const MinimumDuration: int := 1_000_000

  /** A health check's settings; durations in nanoseconds. */
  datatype HealthConfig = HealthConfig(interval: int, timeout: int, startPeriod: int, startInterval: int, retries: int)

  /** A duration setting is unset (zero) or at least `MinimumDuration`. */
  predicate DurationOK(d: int) {
    d == 0 || d >= MinimumDuration
  }

  /**
    `validateHealthCheck`: a missing health check is fine; otherwise the
    interval, timeout, start period and start interval must each be unset
    or at least a millisecond, and the retries not negative. The checks run
    in that order (the retries third) and the first failure is reported.
  */
  function ValidateHealthCheck(h: Option<HealthConfig>): (r: Option<string>)
    ensures r.None? <==>
      h.None? ||
      (DurationOK(h.value.interval) && DurationOK(h.value.timeout) && h.value.retries >= 0 &&
       DurationOK(h.value.startPeriod) && DurationOK(h.value.startInterval))
    ensures h.Some? && !DurationOK(h.value.interval) ==> r == Some("Interval in Healthcheck cannot be less than 1ms")
    ensures h.Some? && DurationOK(h.value.interval) && DurationOK(h.value.timeout) && h.value.retries < 0 ==>
      r == Some("Retries in Healthcheck cannot be negative")
  {
    match h
    case None => None
    case Some(c) =>
      if c.interval != 0 && c.interval < MinimumDuration then Some("Interval in Healthcheck cannot be less than 1ms")
      else if c.timeout != 0 && c.timeout < MinimumDuration then Some("Timeout in Healthcheck cannot be less than 1ms")
      else if c.retries < 0 then Some("Retries in Healthcheck cannot be negative")
      else if c.startPeriod != 0 && c.startPeriod < MinimumDuration then Some("StartPeriod in Healthcheck cannot be less than 1ms")
      else if c.startInterval != 0 && c.startInterval < MinimumDuration then Some("StartInterval in Healthcheck cannot be less than 1ms")
      else None
  }

  /** A mount requested in the host configuration. */
  datatype MountSpec = MountSpec(mountType: string, source: string, target: string)

  const TypeImage: string := "image"
  const TypeVolume: string := "volume"
  const ImageMountWarning: string := "Image mount is an experimental feature"
  const AutoRemoveError: string := "can't create 'AutoRemove' container with restart policy"
  const EmptyAnnotationError: string := "invalid Annotations: the empty string is not permitted as an annotation key"

  /** A restart policy, by name. */
  datatype RestartPolicy = RestartPolicy(name: string, maximumRetryCount: int)

  /** No restart policy: the name is empty or "no". */
  predicate IsNone(p: RestartPolicy) {
    p.name == "" || p.name == "no"
  }

  /** A mount point of a container, keyed by its destination. */
  datatype MountPoint = MountPoint(destination: string, mountType: string, volume: Option<string>, rw: bool, copyData: bool)

  /** The parts of a host configuration the daemon reads and updates in place. */
  class HostConfig {
    var networkMode: string
    var privileged: bool
    var autoRemove: bool
    var restartPolicy: RestartPolicy
    var mounts: seq<MountSpec>
    var extraHosts: seq<string>
    var portBindings: map<string, seq<string>>
    var capAdd: seq<string>
    var capDrop: seq<string>
    var isolation: string
    var annotations: map<string, string>
    var maskedPaths: Option<seq<string>>
    var readonlyPaths: Option<seq<string>>
    var tmpfs: map<string, string>
    var volumeDriver: string
  }

  /** A container object: its ID, its host configuration and its mount points by destination. */
  class Container {
    var id: string
    var hostConfig: HostConfig?
    var mountPoints: map<string, MountPoint>
  }

  /**
    The validators of other packages the daemon calls: each returns the
    error it finds, if any. `isolationValid` is `Isolation.IsValid` on
    Linux and `clean` is `filepath.Clean`.
  */
  datatype Validators = Validators(
    mountConfig: MountSpec -> Option<string>,
    extraHost: string -> Option<string>,
    portBindings: map<string, seq<string>> -> Option<string>,
    restartPolicy: RestartPolicy -> Option<string>,
    capabilities: seq<string> -> Option<string>,
    isolationValid: string -> bool,
    stopSignal: string -> Option<string>,
    env: string -> Option<string>,
    clean: string -> string)

  /**
    `validateCapabilities`: the added capabilities are checked, then the
    dropped ones, each error prefixed with the list it came from.
  */
  function ValidateCapabilities(capAdd: seq<string>, capDrop: seq<string>, v: Validators): (r: Option<string>)
    ensures r.None? <==> v.capabilities(capAdd).None? && v.capabilities(capDrop).None?
    ensures v.capabilities(capAdd).Some? ==> r == Some("invalid CapAdd: " + v.capabilities(capAdd).value)
    ensures v.capabilities(capAdd).None? && v.capabilities(capDrop).Some? ==>
      r == Some("invalid CapDrop: " + v.capabilities(capDrop).value)
  {
    if v.capabilities(capAdd).Some? then Some("invalid CapAdd: " + v.capabilities(capAdd).value)
    else if v.capabilities(capDrop).Some? then Some("invalid CapDrop: " + v.capabilities(capDrop).value)
    else None
  }

  /** The warnings for a list of mounts: one per image mount, in order. */
  function ImageWarnings(ms: seq<MountSpec>): seq<string> {
    if ms == [] then []
    else ImageWarnings(ms[..|ms| - 1]) + (if ms[|ms| - 1].mountType == TypeImage then [ImageMountWarning] else [])
  }

  /** The number of image mounts in a list of mounts. */
  function ImageMountCount(ms: seq<MountSpec>): nat {
    |set i | 0 <= i < |ms| && ms[i].mountType == TypeImage|
  }

  /** There is one warning per image mount, and every warning is the image-mount warning. */
  lemma {:induction false} ImageWarningsCount(ms: seq<MountSpec>)
    ensures |ImageWarnings(ms)| == ImageMountCount(ms)
    ensures forall w :: w in ImageWarnings(ms) ==> w == ImageMountWarning
    decreases |ms|
  {
    if ms != [] {
      var init := ms[..|ms| - 1];
      ImageWarningsCount(init);
      var before := set i | 0 <= i < |init| && init[i].mountType == TypeImage;
      var after := set i | 0 <= i < |ms| && ms[i].mountType == TypeImage;
      if ms[|ms| - 1].mountType == TypeImage {
        assert after == before + {|ms| - 1};
      } else {
        assert after == before;
      }
    }
  }

  /**
    How many mounts the host-config check looks at: up to and including the
    first whose configuration is rejected, or all of them.
  */
  function MountsExamined(ms: seq<MountSpec>, v: Validators): (n: nat)
    ensures n <= |ms|
    ensures forall i :: 0 <= i < n - 1 ==> v.mountConfig(ms[i]).None?
    ensures n < |ms| ==> n > 0 && v.mountConfig(ms[n - 1]).Some?
  {
    if ms == [] then 0
    else if v.mountConfig(ms[0]).Some? then 1
    else 1 + MountsExamined(ms[1..], v)
  }

  /** The checks of a host configuration after its mounts, in the order they run. */
  function LaterHostChecks(hc: HostConfig, v: Validators): Option<string>
    reads hc
  {
    var hosts := FirstError(hc.extraHosts, v.extraHost);
    if hosts.Some? then hosts
    else if v.portBindings(hc.portBindings).Some? then v.portBindings(hc.portBindings)
    else if v.restartPolicy(hc.restartPolicy).Some? then v.restartPolicy(hc.restartPolicy)
    else if ValidateCapabilities(hc.capAdd, hc.capDrop, v).Some? then ValidateCapabilities(hc.capAdd, hc.capDrop, v)
    else if !v.isolationValid(hc.isolation) then Some("invalid isolation '" + hc.isolation + "' on linux")
    else if "" in hc.annotations then Some(EmptyAnnotationError)
    else None
  }

  /**
    `validateHostConfig` as a value: the warnings collected and the error
    found. A missing host configuration is fine.
  */
  function HostConfigCheck(hc: HostConfig?, v: Validators): (seq<string>, Option<string>)
    reads hc
  {
    if hc == null then ([], None)
    else if hc.autoRemove && !IsNone(hc.restartPolicy) then ([], Some(AutoRemoveError))
    else
      var n := MountsExamined(hc.mounts, v);
      var warnings := ImageWarnings(hc.mounts[..n]);
      if n > 0 && v.mountConfig(hc.mounts[n - 1]).Some? then (warnings, v.mountConfig(hc.mounts[n - 1]))
      else (warnings, LaterHostChecks(hc, v))
  }

  /** Every part of a host configuration is accepted. */
  predicate HostConfigAccepted(hc: HostConfig, v: Validators)
    reads hc
  {
    !(hc.autoRemove && !IsNone(hc.restartPolicy)) &&
    (forall m :: m in hc.mounts ==> v.mountConfig(m).None?) &&
    (forall h :: h in hc.extraHosts ==> v.extraHost(h).None?) &&
    v.portBindings(hc.portBindings).None? &&
    v.restartPolicy(hc.restartPolicy).None? &&
    v.capabilities(hc.capAdd).None? && v.capabilities(hc.capDrop).None? &&
    v.isolationValid(hc.isolation) &&
    "" !in hc.annotations
  }

  /**
    What validating a host configuration decides: it fails exactly when some
    part is rejected; AutoRemove with a restart policy is rejected before
    anything else, with no warnings; an empty annotation key is always
    rejected; and an accepted configuration is warned about once per image
    mount.
  */
  lemma HostConfigCheckFacts(hc: HostConfig?, v: Validators)
    ensures HostConfigCheck(hc, v).1.None? <==> hc == null || HostConfigAccepted(hc, v)
    ensures hc == null ==> HostConfigCheck(hc, v) == ([], None)
    ensures hc != null && hc.autoRemove && !IsNone(hc.restartPolicy) ==> HostConfigCheck(hc, v) == ([], Some(AutoRemoveError))
    ensures hc != null && "" in hc.annotations ==> HostConfigCheck(hc, v).1.Some?
    ensures hc != null && HostConfigCheck(hc, v).1.None? ==>
      HostConfigCheck(hc, v).0 == ImageWarnings(hc.mounts) && |HostConfigCheck(hc, v).0| == ImageMountCount(hc.mounts)
    ensures forall w :: w in HostConfigCheck(hc, v).0 ==> w == ImageMountWarning
  {
    if hc != null {
      FirstErrorFacts(hc.extraHosts, v.extraHost);
      var n := MountsExamined(hc.mounts, v);
      ImageWarningsCount(hc.mounts[..n]);
      ImageWarningsCount(hc.mounts);
      if forall m :: m in hc.mounts ==> v.mountConfig(m).None? {
        assert hc.mounts[..n] == hc.mounts;
      }
    }
  }

  /**
    `validateHostConfig`: AutoRemove with a restart policy is refused; then
    each mount is checked in order, an image mount adding a warning; then
    the extra hosts, the port bindings, the restart policy, the
    capabilities, the isolation and the annotation keys.
  */
  method ValidateHostConfig(hc: HostConfig?, v: Validators) returns (warnings: seq<string>, err: Option<string>)
    ensures (warnings, err) == HostConfigCheck(hc, v)
  {
    if hc == null {
      return [], None;
    }
    warnings := [];
    if hc.autoRemove && !IsNone(hc.restartPolicy) {
      return warnings, Some(AutoRemoveError);
    }
    var i := 0;
    while i < |hc.mounts|
      invariant 0 <= i <= |hc.mounts|
      invariant forall j :: 0 <= j < i ==> v.mountConfig(hc.mounts[j]).None?
      invariant warnings == ImageWarnings(hc.mounts[..i])
    {
      var m := hc.mounts[i];
      assert hc.mounts[..i + 1][..i] == hc.mounts[..i];
      if m.mountType == TypeImage {
        warnings := warnings + [ImageMountWarning];
      }
      var e := v.mountConfig(m);
      if e.Some? {
        MountsExaminedAt(hc.mounts, v, i);
        assert warnings == ImageWarnings(hc.mounts[..i + 1]);
        return warnings, e;
      }
      i := i + 1;
    }
    MountsExaminedAt(hc.mounts, v, i);
    assert hc.mounts[..i] == hc.mounts;
    var k := 0;
    while k < |hc.extraHosts|
      invariant 0 <= k <= |hc.extraHosts|
      invariant FirstError(hc.extraHosts, v.extraHost) == FirstError(hc.extraHosts[k..], v.extraHost)
    {
      var e := v.extraHost(hc.extraHosts[k]);
      if e.Some? {
        return warnings, e;
      }
      assert hc.extraHosts[k..][1..] == hc.extraHosts[k + 1..];
      k := k + 1;
    }
    err := v.portBindings(hc.portBindings);
    if err.Some? {
      return;
    }
    err := v.restartPolicy(hc.restartPolicy);
    if err.Some? {
      return;
    }
    err := ValidateCapabilities(hc.capAdd, hc.capDrop, v);
    if err.Some? {
      return;
    }
    if !v.isolationValid(hc.isolation) {
      return warnings, Some("invalid isolation '" + hc.isolation + "' on linux");
    }
    if "" in hc.annotations {
      return warnings, Some(EmptyAnnotationError);
    }
    return warnings, None;
  }

  /** The mount check stops at the first rejected mount, or passes all of them. */
  lemma {:induction false} MountsExaminedAt(ms: seq<MountSpec>, v: Validators, i: nat)
    requires i <= |ms|
    requires forall j :: 0 <= j < i ==> v.mountConfig(ms[j]).None?
    requires i < |ms| ==> v.mountConfig(ms[i]).Some?
    ensures MountsExamined(ms, v) == if i < |ms| then i + 1 else |ms|
    decreases i
  {
    if i > 0 {
      MountsExaminedAt(ms[1..], v, i - 1);
    }
  }

  /** An absolute path on Linux starts with '/'. */
  predicate IsAbs(path: string) {
    HasPrefix(path, "/")
  }

  /** The error for a working directory that is not absolute. */
  function WorkingDirError(wd: string): string {
    "the working directory '" + wd + "' is invalid, it needs to be an absolute path"
  }

  /**
    `translateWorkingDir`: an empty working directory is left alone; one that
    is not absolute is refused and left as it was; an absolute one is
    replaced by its cleaned form.
  */
  method TranslateWorkingDir(config: ContainerConfig, clean: string -> string) returns (err: Option<string>)
    modifies config
    ensures old(config.workingDir) == "" ==> err.None? && config.workingDir == ""
    ensures old(config.workingDir) != "" && !IsAbs(old(config.workingDir)) ==>
      err == Some(WorkingDirError(old(config.workingDir))) && config.workingDir == old(config.workingDir)
    ensures old(config.workingDir) != "" && IsAbs(old(config.workingDir)) ==>
      err.None? && config.workingDir == clean(old(config.workingDir))
    ensures err.Some? <==> old(config.workingDir) != "" && !IsAbs(old(config.workingDir))
    ensures config.hostname == old(config.hostname) && config.entrypoint == old(config.entrypoint) &&
            config.cmd == old(config.cmd) && config.stopSignal == old(config.stopSignal) &&
            config.env == old(config.env) && config.healthcheck == old(config.healthcheck) &&
            config.volumes == old(config.volumes)
  {
    if config.workingDir == "" {
      return None;
    }
    var wd := config.workingDir;
    if !IsAbs(wd) {
      return Some(WorkingDirError(wd));
    }
    config.workingDir := clean(wd);
    return None;
  }

  /**
    Whether a container configuration passes `validateContainerConfig`: its
    working directory is empty or absolute, its stop signal empty or
    parseable, every environment entry valid and its health check valid.
  */
  predicate ContainerConfigAccepted(workingDir: string, stopSignal: string, env: seq<string>,
                                    health: Option<HealthConfig>, v: Validators) {
    (workingDir == "" || IsAbs(workingDir)) &&
    (stopSignal == "" || v.stopSignal(stopSignal).None?) &&
    (forall e :: e in env ==> v.env(e).None?) &&
    ValidateHealthCheck(health).None?
  }

  /**
    The error `validateContainerConfig` reports, in the order it checks: a
    relative working directory, then an unparseable stop signal, then the
    first invalid environment entry, then the health check.
  */
  function ContainerConfigError(workingDir: string, stopSignal: string, env: seq<string>,
                                health: Option<HealthConfig>, v: Validators): Option<string> {
    if workingDir != "" && !IsAbs(workingDir) then Some(WorkingDirError(workingDir))
    else if stopSignal != "" && v.stopSignal(stopSignal).Some? then v.stopSignal(stopSignal)
    else if FirstError(env, v.env).Some? then FirstError(env, v.env)
    else ValidateHealthCheck(health)
  }

  /** A configuration is accepted exactly when no error is reported for it. */
  lemma ContainerConfigErrorAccepted(workingDir: string, stopSignal: string, env: seq<string>,
                                     health: Option<HealthConfig>, v: Validators)
    ensures ContainerConfigError(workingDir, stopSignal, env, health, v).None? <==>
      ContainerConfigAccepted(workingDir, stopSignal, env, health, v)
  {
    FirstErrorFacts(env, v.env);
  }

  /**
    `validateContainerConfig`: a missing configuration is fine; otherwise the
    working directory is translated, then the stop signal, the environment
    entries in order and the health check are checked, and the first error
    is returned.
  */
  method ValidateContainerConfig(config: ContainerConfig?, v: Validators) returns (err: Option<string>)
    modifies config
    ensures config == null ==> err.None?
    ensures config != null ==>
      err == ContainerConfigError(old(config.workingDir), config.stopSignal, config.env, config.healthcheck, v)
    ensures config != null ==>
      (err.None? <==> ContainerConfigAccepted(old(config.workingDir), config.stopSignal, config.env, config.healthcheck, v))
    ensures config != null && old(config.workingDir) != "" && !IsAbs(old(config.workingDir)) ==>
      err == Some(WorkingDirError(old(config.workingDir)))
    ensures config != null && (old(config.workingDir) == "" || !IsAbs(old(config.workingDir))) ==>
      config.workingDir == old(config.workingDir)
    ensures config != null && old(config.workingDir) != "" && IsAbs(old(config.workingDir)) ==>
      config.workingDir == v.clean(old(config.workingDir))
    ensures config != null && err.None? ==> ValidateHealthCheck(config.healthcheck).None?
    ensures config != null ==>
      config.stopSignal == old(config.stopSignal) && config.env == old(config.env) &&
      config.healthcheck == old(config.healthcheck) && config.hostname == old(config.hostname) &&
      config.entrypoint == old(config.entrypoint) && config.cmd == old(config.cmd) && config.volumes == old(config.volumes)
  {
    if config == null {
      return None;
    }
    err := TranslateWorkingDir(config, v.clean);
    if err.Some? {
      return;
    }
    if config.stopSignal != "" {
      err := v.stopSignal(config.stopSignal);
      if err.Some? {
        return;
      }
    }
    var i := 0;
    while i < |config.env|
      invariant 0 <= i <= |config.env|
      invariant forall j :: 0 <= j < i ==> v.env(config.env[j]).None?
    {
      err := v.env(config.env[i]);
      if err.Some? {
        assert config.env[i] in config.env;
        FirstErrorAt(config.env, v.env, i);
        return;
      }
      i := i + 1;
    }
    FirstErrorAt(config.env, v.env, i);
    err := ValidateHealthCheck(config.healthcheck);
  }

  /**
    `verifyContainerSettings`: the container configuration is validated
    first (an absolute working directory is cleaned in place), and a failure
    there returns its first error and no warnings; then the host
    configuration, whose warnings are kept even when it fails; then the
    platform's own checks (`platform`: their warnings and error), whose
    warnings are appended.
  */
  method VerifyContainerSettings(hc: HostConfig?, config: ContainerConfig?, v: Validators,
                                 platform: (seq<string>, Option<string>))
    returns (warnings: seq<string>, err: Option<string>)
    modifies config
    ensures config != null && !ContainerConfigAccepted(old(config.workingDir), config.stopSignal, config.env, config.healthcheck, v) ==>
      warnings == [] && err.Some? &&
      err == ContainerConfigError(old(config.workingDir), config.stopSignal, config.env, config.healthcheck, v)
    ensures config != null && (old(config.workingDir) == "" || !IsAbs(old(config.workingDir))) ==>
      config.workingDir == old(config.workingDir)
    ensures config != null && old(config.workingDir) != "" && IsAbs(old(config.workingDir)) ==>
      config.workingDir == v.clean(old(config.workingDir))
    ensures config != null ==>
      config.stopSignal == old(config.stopSignal) && config.env == old(config.env) &&
      config.healthcheck == old(config.healthcheck) && config.hostname == old(config.hostname) &&
      config.entrypoint == old(config.entrypoint) && config.cmd == old(config.cmd) && config.volumes == old(config.volumes)
    ensures (config == null || ContainerConfigAccepted(old(config.workingDir), config.stopSignal, config.env, config.healthcheck, v)) ==>
      var (hw, he) := HostConfigCheck(hc, v);
      if he.Some? then warnings == hw && err == he
      else warnings == hw + platform.0 && err == platform.1
    ensures err.None? ==> (hc == null || HostConfigAccepted(hc, v)) && platform.1.None?
  {
    err := ValidateContainerConfig(config, v);
    if err.Some? {
      return [], err;
    }
    var warns;
    warns, err := ValidateHostConfig(hc, v);
    warnings := warns;
    HostConfigCheckFacts(hc, v);
    if err.Some? {
      return;
    }
    warnings := warnings + platform.0;
    err := platform.1;
  }

  /**
    `setHostConfig`: registers the mount points (`registerMounts` is the
    outcome of `registerMountPoints`: the container's new mount points by
    destination, or its error), then the links; either failure leaves the
    container's host configuration as it was. On success an empty network
    mode defaults to "default" and the host configuration is installed on
    the container.
  */
  method SetHostConfig(c: Container, hc: HostConfig?, registerMounts: Result<map<string, MountPoint>, string>,
                       registerLinks: Option<string>)
    returns (err: Option<string>)
    modifies c, hc
    ensures registerMounts.Err? ==> err == Some(registerMounts.error)
    ensures registerMounts.Ok? ==> err == registerLinks
    ensures registerMounts.Err? ==> c.mountPoints == old(c.mountPoints)
    ensures registerMounts.Ok? ==> c.mountPoints == registerMounts.value
    ensures err.Some? ==> c.hostConfig == old(c.hostConfig) && (hc != null ==> hc.networkMode == old(hc.networkMode))
    ensures err.None? ==> c.hostConfig == hc
    ensures err.None? && hc != null ==>
      hc.networkMode == (if old(hc.networkMode) == "" then DefaultNetworkMode else old(hc.networkMode))
    ensures c.id == old(c.id)
  {
    if registerMounts.Err? {
      return Some(registerMounts.error);
    }
    c.mountPoints := registerMounts.value;
    if registerLinks.Some? {
      return registerLinks;
    }
    if hc != null && hc.networkMode == "" {
      hc.networkMode := DefaultNetworkMode;
    }
    c.hostConfig := hc;
    return None;
  }
}
