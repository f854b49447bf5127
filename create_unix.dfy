/**
  The Linux part of creating a container (daemon/create_unix.go): mounting
  the container's filesystem for the duration of the call, defaulting the
  masked and read-only paths, creating an anonymous volume for each volume
  the configuration declares that nothing is mounted on yet, and copying the
  image's data into the new volumes. Mounting, the filesystem, the volume
  service and SELinux relabelling are parameters; Go's unordered iteration
  over maps is an arbitrary choice of the next key.
*/
module CreateUnix {
  import opened Common
  import opened Containers

  /** What `os.Stat` reports about a path. */
  datatype StatResult = StatDir | StatFile | StatNotExist | StatFailed(error: string)

  /** What setting a mount point up for copying reports. */
  datatype SetupResult = SetupOk(path: string) | SetupNotFound | SetupFailed(error: string)

  /** The effects creating a container has, in order. */
  datatype Effect =
    | Mount | Unmount | SetupWorkingDir
    | CreateVolume(destination: string) | AddMountPoint(destination: string)
    | SetupVolume(destination: string) | CopyImageData(destination: string) | VolumeCleanup(destination: string)

  /** An effect of creating an anonymous volume or registering it as a mount point. */
  predicate IsVolumeEffect(e: Effect) {
    e.CreateVolume? || e.AddMountPoint?
  }

  /** An effect of populating the volume at some destination. */
  predicate IsPopulateEffect(e: Effect) {
    e.SetupVolume? || e.CopyImageData? || e.VolumeCleanup?
  }

  /**
    The outside world: whether mounting the container and setting its working
    directory up fail, the default masked and read-only paths of the OCI
    spec, `filepath.Clean`, the container's resource path of a destination,
    `os.Stat`, the volume created for a destination (its name) and whether
    relabelling it fails, setting a mount point up, and copying image data
    (from the container path to the volume path).
  */
  datatype Host = Host(
    mount: Option<string>,
    setupWorkingDir: Option<string>,
    defaultMaskedPaths: seq<string>,
    defaultReadonlyPaths: seq<string>,
    clean: string -> string,
    resourcePath: string -> Result<string, string>,
    stat: string -> StatResult,
    createVolume: string -> Result<string, string>,
    relabel: string -> Option<string>,
    setup: MountPoint -> SetupResult,
    copy: (string, string) -> Option<string>)

  /** The mount point an anonymous volume is registered as: read-write, copying the image's data. */
  function VolumeMount(destination: string, volume: string): MountPoint {
    MountPoint(destination, TypeVolume, Some(volume), true, true)
  }

  /** The error for a volume declared over an existing file. */
  function ExistingFileError(path: string): string {
    "cannot mount volume over existing file, file exists " + path
  }

  /**
    The masked and read-only paths a host configuration ends up with: the
    defaults when they are unset and the container is not privileged, what
    was set otherwise.
  */
  function DefaultedPaths(paths: Option<seq<string>>, privileged: bool, defaults: seq<string>): (r: Option<seq<string>>)
    ensures r.None? <==> paths.None? && privileged
    ensures paths.Some? ==> r == paths
    ensures paths.None? && !privileged ==> r == Some(defaults)
  {
    if paths.None? && !privileged then Some(defaults) else paths
  }

  /**
    Setting the default masked and read-only paths on the host configuration
    passed in, mirrored into the container's own host configuration.
  */
  method ApplyPathDefaults(c: Container, hostConfig: HostConfig, fx: Host)
    requires c.hostConfig != null
    modifies hostConfig, c.hostConfig
    ensures hostConfig.maskedPaths ==
      DefaultedPaths(old(hostConfig.maskedPaths), old(hostConfig.privileged), fx.defaultMaskedPaths)
    ensures hostConfig.readonlyPaths ==
      DefaultedPaths(old(hostConfig.readonlyPaths), old(hostConfig.privileged), fx.defaultReadonlyPaths)
    ensures c.hostConfig.maskedPaths ==
      if old(hostConfig.maskedPaths).None? && !old(hostConfig.privileged) then Some(fx.defaultMaskedPaths)
      else old(c.hostConfig.maskedPaths)
    ensures c.hostConfig.readonlyPaths ==
      if old(hostConfig.readonlyPaths).None? && !old(hostConfig.privileged) then Some(fx.defaultReadonlyPaths)
      else old(c.hostConfig.readonlyPaths)
    ensures hostConfig.privileged == old(hostConfig.privileged) && hostConfig.tmpfs == old(hostConfig.tmpfs)
    ensures c.hostConfig.tmpfs == old(c.hostConfig.tmpfs)
  {
    if hostConfig.maskedPaths.None? && !hostConfig.privileged {
      hostConfig.maskedPaths := Some(fx.defaultMaskedPaths);
      c.hostConfig.maskedPaths := hostConfig.maskedPaths;
    }
    if hostConfig.readonlyPaths.None? && !hostConfig.privileged {
      hostConfig.readonlyPaths := Some(fx.defaultReadonlyPaths);
      c.hostConfig.readonlyPaths := hostConfig.readonlyPaths;
    }
  }

  /** `HasMountFor`: a mount point or a tmpfs mount exists at the destination. */
  predicate HasMountFor(mountPoints: map<string, MountPoint>, tmpfs: map<string, string>, destination: string) {
    destination in mountPoints || destination in tmpfs
  }

  /** A destination with no mount yet whose path in the container is an existing non-directory. */
  predicate OverExistingFile(mountPoints: map<string, MountPoint>, tmpfs: map<string, string>, fx: Host, destination: string) {
    !HasMountFor(mountPoints, tmpfs, destination) && fx.resourcePath(destination).Ok? &&
    fx.stat(fx.resourcePath(destination).value) == StatFile
  }

  /**
    The error creating an anonymous volume at a destination with no mount
    reports, if any: the container's resource path, an existing
    non-directory there, the volume service, then relabelling the volume.
  */
  function VolumeError(destination: string, fx: Host): Option<string> {
    var path := fx.resourcePath(destination);
    if path.Err? then Some(path.error)
    else if fx.stat(path.value) == StatFile then Some(ExistingFileError(path.value))
    else if fx.createVolume(destination).Err? then Some(fx.createVolume(destination).error)
    else fx.relabel(fx.createVolume(destination).value)
  }

  /** A volume is created at the destination: its path resolves, is no existing file, and the service creates one. */
  predicate VolumeCreated(destination: string, fx: Host) {
    fx.resourcePath(destination).Ok? && fx.stat(fx.resourcePath(destination).value) != StatFile &&
    fx.createVolume(destination).Ok?
  }

  /** Every declared volume either has a mount already or gets an anonymous volume without error. */
  predicate VolumesAccepted(mountPoints: map<string, MountPoint>, tmpfs: map<string, string>, specs: set<string>, fx: Host) {
    forall s :: s in specs ==> HasMountFor(mountPoints, tmpfs, fx.clean(s)) || VolumeError(fx.clean(s), fx).None?
  }

  /**
    The shape of the anonymous-volume effects: only volume effects, no
    effect twice, and each registration right after the creation of its
    volume.
  */
  ghost predicate VolumeTrace(trace: seq<Effect>) {
    (forall e :: e in trace ==> IsVolumeEffect(e)) &&
    (forall i, j :: 0 <= i < j < |trace| ==> trace[i] != trace[j]) &&
    (forall i :: 0 <= i < |trace| && trace[i].AddMountPoint? ==> 0 < i && trace[i - 1] == CreateVolume(trace[i].destination))
  }

  /**
    The mount points after some anonymous volumes, from `before`: every
    mount point kept, every new one a registered volume, every volume
    created or registered at a destination that had no mount, and every
    registered volume mounted at its destination.
  */
  ghost predicate VolumesMounted(before: map<string, MountPoint>, mountPoints: map<string, MountPoint>,
                                 tmpfs: map<string, string>, trace: seq<Effect>, fx: Host) {
    (forall d :: d in before ==> d in mountPoints && mountPoints[d] == before[d]) &&
    (forall d :: d in mountPoints ==> d in before || AddMountPoint(d) in trace) &&
    (forall d :: CreateVolume(d) in trace ==> !HasMountFor(before, tmpfs, d) && VolumeCreated(d, fx)) &&
    (forall d :: AddMountPoint(d) in trace ==>
       !HasMountFor(before, tmpfs, d) && VolumeError(d, fx).None? && d in mountPoints && mountPoints[d] == VolumeMount(d, fx.createVolume(d).value))
  }

  /** A volume created but not registered is one whose relabelling failed with `err`. */
  ghost predicate RelabelFailed(trace: seq<Effect>, err: Option<string>, fx: Host) {
    forall d :: CreateVolume(d) in trace && AddMountPoint(d) !in trace ==>
      err.Some? && fx.createVolume(d).Ok? && err == fx.relabel(fx.createVolume(d).value)
  }

  /** Appending an effect that is not there yet keeps the shape, a registration only right after its creation. */
  lemma VolumeTraceAppend(trace: seq<Effect>, e: Effect)
    requires VolumeTrace(trace) && IsVolumeEffect(e) && e !in trace
    requires e.AddMountPoint? ==> trace != [] && trace[|trace| - 1] == CreateVolume(e.destination)
    ensures VolumeTrace(trace + [e])
  {
    var t := trace + [e];
    forall i, j | 0 <= i < j < |t|
      ensures t[i] != t[j]
    {
      if j == |trace| {
        assert t[i] in trace;
      }
    }
  }

  /** Creating a volume at a destination with no mount keeps the mount points as they were. */
  lemma CreateKeepsMounted(before: map<string, MountPoint>, mountPoints: map<string, MountPoint>, tmpfs: map<string, string>,
                           trace: seq<Effect>, fx: Host, d: string)
    requires VolumesMounted(before, mountPoints, tmpfs, trace, fx)
    requires !HasMountFor(mountPoints, tmpfs, d) && VolumeCreated(d, fx)
    ensures VolumesMounted(before, mountPoints, tmpfs, trace + [CreateVolume(d)], fx)
  {
  }

  /** Registering the volume created at a destination with no mount adds exactly that mount point. */
  lemma RegisterKeepsMounted(before: map<string, MountPoint>, mountPoints: map<string, MountPoint>, tmpfs: map<string, string>,
                             trace: seq<Effect>, fx: Host, d: string)
    requires VolumesMounted(before, mountPoints, tmpfs, trace, fx)
    requires !HasMountFor(mountPoints, tmpfs, d) && VolumeError(d, fx).None?
    ensures VolumesMounted(before, mountPoints[d := VolumeMount(d, fx.createVolume(d).value)], tmpfs,
                           trace + [AddMountPoint(d)], fx)
  {
  }

  /**
    A declared volume over an existing file makes the loop fail, and no
    volume is created there.
  */
  lemma OverExistingFileRefused(before: map<string, MountPoint>, mountPoints: map<string, MountPoint>,
                                tmpfs: map<string, string>, trace: seq<Effect>, specs: set<string>,
                                err: Option<string>, fx: Host)
    requires VolumesMounted(before, mountPoints, tmpfs, trace, fx)
    requires err.None? ==> VolumesAccepted(before, tmpfs, specs, fx)
    ensures forall s :: s in specs && OverExistingFile(before, tmpfs, fx, fx.clean(s)) ==>
      err.Some? && CreateVolume(fx.clean(s)) !in trace
  {
  }

  /**
    One iteration of the anonymous-volume loop for a destination with no
    mount: resolves its path, refuses an existing non-directory, creates a
    volume, relabels it and registers it; the error is `VolumeError`.
  */
  method AddAnonymousVolume(c: Container, ghost before: map<string, MountPoint>, tmpfs: map<string, string>,
                            destination: string, fx: Host, trace0: seq<Effect>)
    returns (err: Option<string>, trace: seq<Effect>)
    requires VolumeTrace(trace0) && VolumesMounted(before, c.mountPoints, tmpfs, trace0, fx) && RelabelFailed(trace0, None, fx)
    requires !HasMountFor(c.mountPoints, tmpfs, destination)
    modifies c
    ensures c.hostConfig == old(c.hostConfig) && c.id == old(c.id)
    ensures err == VolumeError(destination, fx)
    ensures VolumeTrace(trace) && VolumesMounted(before, c.mountPoints, tmpfs, trace, fx) && RelabelFailed(trace, err, fx)
    ensures old(c.mountPoints).Keys <= c.mountPoints.Keys
    ensures err.None? ==> destination in c.mountPoints
  {
    trace := trace0;
    var path := fx.resourcePath(destination);
    if path.Err? {
      return Some(path.error), trace;
    }
    if fx.stat(path.value) == StatFile {
      return Some(ExistingFileError(path.value)), trace;
    }
    var volume := fx.createVolume(destination);
    if volume.Err? {
      return Some(volume.error), trace;
    }
    assert AddMountPoint(destination) !in trace && CreateVolume(destination) !in trace;
    VolumeTraceAppend(trace, CreateVolume(destination));
    CreateKeepsMounted(before, c.mountPoints, tmpfs, trace, fx, destination);
    trace := trace + [CreateVolume(destination)];
    err := fx.relabel(volume.value);
    if err.None? {
      VolumeTraceAppend(trace, AddMountPoint(destination));
      RegisterKeepsMounted(before, c.mountPoints, tmpfs, trace, fx, destination);
      c.mountPoints := c.mountPoints[destination := VolumeMount(destination, volume.value)];
      trace := trace + [AddMountPoint(destination)];
    }
  }

  /**
    The anonymous-volume loop: for each declared volume, in whatever order
    the set yields them, the destination is cleaned; one with a mount
    already is skipped; otherwise an existing non-directory there is refused,
    and a volume is created, relabelled and registered at the destination.
    It succeeds iff every declared volume has a mount already or gets one
    without error; otherwise the error is that of a declared volume that had
    none. Volumes are only ever added, each at a destination that had no
    mount, and on success every declared destination has one. A volume whose
    relabelling fails is created but never registered.
  */
  method CreateAnonymousVolumes(c: Container, specs: set<string>, fx: Host) returns (err: Option<string>, trace: seq<Effect>)
    requires c.hostConfig != null
    modifies c
    ensures c.hostConfig == old(c.hostConfig) && c.id == old(c.id)
    ensures err.None? <==> VolumesAccepted(old(c.mountPoints), c.hostConfig.tmpfs, specs, fx)
    ensures err.Some? ==> exists s :: s in specs && !HasMountFor(old(c.mountPoints), c.hostConfig.tmpfs, fx.clean(s)) &&
                                      err == VolumeError(fx.clean(s), fx)
    ensures VolumeTrace(trace)
    ensures VolumesMounted(old(c.mountPoints), c.mountPoints, c.hostConfig.tmpfs, trace, fx)
    ensures RelabelFailed(trace, err, fx)
    ensures err.None? ==> forall s :: s in specs ==> HasMountFor(c.mountPoints, c.hostConfig.tmpfs, fx.clean(s))
    ensures forall s :: s in specs && OverExistingFile(old(c.mountPoints), c.hostConfig.tmpfs, fx, fx.clean(s)) ==>
      err.Some? && CreateVolume(fx.clean(s)) !in trace
  {
    err := None;
    trace := [];
    var tmpfs := c.hostConfig.tmpfs;
    var remaining := specs;
    ghost var failed: string := "";
    while remaining != {} && err.None?
      invariant remaining <= specs
      invariant c.hostConfig == old(c.hostConfig) && c.id == old(c.id)
      invariant VolumeTrace(trace)
      invariant VolumesMounted(old(c.mountPoints), c.mountPoints, tmpfs, trace, fx)
      invariant RelabelFailed(trace, err, fx)
      invariant err.None? ==> forall s :: s in specs - remaining ==>
        HasMountFor(c.mountPoints, tmpfs, fx.clean(s)) &&
        (HasMountFor(old(c.mountPoints), tmpfs, fx.clean(s)) || VolumeError(fx.clean(s), fx).None?)
      invariant err.Some? ==> failed in specs && !HasMountFor(old(c.mountPoints), tmpfs, fx.clean(failed)) &&
                              err == VolumeError(fx.clean(failed), fx)
      decreases remaining
    {
      var spec :| spec in remaining;
      remaining := remaining - {spec};
      var destination := fx.clean(spec);
      if !HasMountFor(c.mountPoints, tmpfs, destination) {
        err, trace := AddAnonymousVolume(c, old(c.mountPoints), tmpfs, destination, fx, trace);
        if err.Some? {
          failed := spec;
        }
      }
    }
    if err.None? {
      assert specs - remaining == specs;
    } else {
      assert !(HasMountFor(old(c.mountPoints), tmpfs, fx.clean(failed)) || VolumeError(fx.clean(failed), fx).None?);
    }
    OverExistingFileRefused(old(c.mountPoints), c.mountPoints, tmpfs, trace, specs, err, fx);
  }

  /** Whether `populateVolumes` copies data into a mount point: a volume mount that asks for it. */
  predicate Eligible(m: MountPoint) {
    m.volume.Some? && m.mountType == TypeVolume && m.copyData
  }

  /** The error `populateVolume` returns for a mount point, if any. */
  function PopulateVolumeError(m: MountPoint, fx: Host): Option<string> {
    var path := fx.resourcePath(m.destination);
    if path.Err? then Some(path.error)
    else
      match fx.stat(path.value)
      case StatNotExist => None
      case StatFailed(e) => Some(e)
      case _ =>
        match fx.setup(m)
        case SetupNotFound => None
        case SetupFailed(e) => Some("failed to populate volume: " + e)
        case SetupOk(volumePath) => fx.copy(volumePath, path.value)
  }

  /**
    `populateVolume`: nothing is done when the destination does not exist in
    the container or setting the mount point up finds no volume; once the
    mount point is set up, the image's data is copied and the mount point is
    cleaned up afterwards, whatever the copy reports.
  */
  method PopulateVolume(m: MountPoint, fx: Host) returns (err: Option<string>, trace: seq<Effect>)
    ensures err == PopulateVolumeError(m, fx)
    ensures fx.resourcePath(m.destination).Err? ==> trace == []
    ensures fx.resourcePath(m.destination).Ok? && fx.stat(fx.resourcePath(m.destination).value).StatNotExist? ==>
      err.None? && trace == []
    ensures trace != [] ==> trace[0] == SetupVolume(m.destination)
    ensures SetupVolume(m.destination) in trace && fx.setup(m).SetupNotFound? ==> err.None?
    ensures CopyImageData(m.destination) in trace <==> fx.setup(m).SetupOk? && trace != []
    ensures CopyImageData(m.destination) in trace ==>
      trace == [SetupVolume(m.destination), CopyImageData(m.destination), VolumeCleanup(m.destination)]
    ensures forall e :: e in trace ==> IsPopulateEffect(e) && e.destination == m.destination
  {
    var path := fx.resourcePath(m.destination);
    if path.Err? {
      return Some(path.error), [];
    }
    match fx.stat(path.value) {
      case StatNotExist =>
        return None, [];
      case StatFailed(e) =>
        return Some(e), [];
      case _ =>
    }
    trace := [SetupVolume(m.destination)];
    match fx.setup(m) {
      case SetupNotFound =>
        return None, trace;
      case SetupFailed(e) =>
        return Some("failed to populate volume: " + e), trace;
      case SetupOk(volumePath) =>
        err := fx.copy(volumePath, path.value);
        trace := trace + [CopyImageData(m.destination), VolumeCleanup(m.destination)];
    }
  }

  /**
    `populateVolumes`: every eligible mount point, in whatever order the map
    yields them, is populated, stopping at the first error. It succeeds
    exactly when every eligible mount point populates without error, and an
    error it returns is that of an eligible mount point.
  */
  method PopulateVolumes(mountPoints: map<string, MountPoint>, fx: Host) returns (err: Option<string>, trace: seq<Effect>)
    ensures err.None? <==>
      forall d :: d in mountPoints && Eligible(mountPoints[d]) ==> PopulateVolumeError(mountPoints[d], fx).None?
    ensures err.Some? ==>
      exists d :: d in mountPoints && Eligible(mountPoints[d]) && PopulateVolumeError(mountPoints[d], fx) == err
    ensures forall e :: e in trace ==>
      IsPopulateEffect(e) && exists d :: d in mountPoints && Eligible(mountPoints[d]) && mountPoints[d].destination == e.destination
  {
    err := None;
    trace := [];
    var remaining := mountPoints.Keys;
    while remaining != {}
      invariant remaining <= mountPoints.Keys
      invariant forall d :: d in mountPoints.Keys - remaining && Eligible(mountPoints[d]) ==>
        PopulateVolumeError(mountPoints[d], fx).None?
      invariant forall e :: e in trace ==>
        IsPopulateEffect(e) && exists d :: d in mountPoints && Eligible(mountPoints[d]) && mountPoints[d].destination == e.destination
      decreases remaining
    {
      var d :| d in remaining;
      remaining := remaining - {d};
      var m := mountPoints[d];
      if Eligible(m) {
        var e, t := PopulateVolume(m, fx);
        trace := trace + t;
        if e.Some? {
          return e, trace;
        }
      }
    }
  }

  /**
    The effects while mounted: the working directory, then the volume
    effects, then the populate effects. Volume effects occur exactly as in
    the volume part, and every one precedes every populate effect.
  */
  lemma MountedTrace(created: seq<Effect>, populated: seq<Effect>)
    requires forall e :: e in created ==> IsVolumeEffect(e)
    requires forall e :: e in populated ==> IsPopulateEffect(e)
    ensures var t := [SetupWorkingDir] + created + populated;
      (forall e :: IsVolumeEffect(e) ==> (e in t <==> e in created)) &&
      (forall e :: e in t ==> e != Mount && e != Unmount) &&
      (populated == [] ==> forall e :: e in t ==> !IsPopulateEffect(e)) &&
      (forall i, j :: 0 <= i < |t| && 0 <= j < |t| && IsVolumeEffect(t[i]) && IsPopulateEffect(t[j]) ==> i < j)
  {
    var t := [SetupWorkingDir] + created + populated;
    forall i | 0 <= i < |t|
      ensures IsVolumeEffect(t[i]) ==> 0 < i <= |created|
      ensures IsPopulateEffect(t[i]) ==> |created| < i
    {
      if i == 0 {
        assert t[i] == SetupWorkingDir;
      } else if i <= |created| {
        assert t[i] == created[i - 1] && t[i] in created;
      } else {
        assert t[i] == populated[i - 1 - |created|] && t[i] in populated;
      }
    }
  }

  /**
    What `createContainerOSSpecificSettings` does while the container is
    mounted: sets the working directory up (a failure there changes
    nothing), defaults the masked and read-only paths, creates the anonymous
    volumes and, when that succeeded, populates the eligible mount points.
  */
  method WhileMounted(c: Container, config: ContainerConfig, hostConfig: HostConfig, fx: Host)
    returns (err: Option<string>, trace: seq<Effect>)
    requires c.hostConfig != null
    modifies c, hostConfig, c.hostConfig
    ensures forall e :: e in trace ==> e != Mount && e != Unmount
    ensures trace != [] && trace[0] == SetupWorkingDir
    ensures fx.setupWorkingDir.Some? ==>
      err == fx.setupWorkingDir && trace == [SetupWorkingDir] && c.mountPoints == old(c.mountPoints) &&
      hostConfig.maskedPaths == old(hostConfig.maskedPaths) && hostConfig.readonlyPaths == old(hostConfig.readonlyPaths)
    ensures fx.setupWorkingDir.None? ==>
      hostConfig.maskedPaths == DefaultedPaths(old(hostConfig.maskedPaths), old(hostConfig.privileged), fx.defaultMaskedPaths) &&
      hostConfig.readonlyPaths == DefaultedPaths(old(hostConfig.readonlyPaths), old(hostConfig.privileged), fx.defaultReadonlyPaths)
    ensures c.hostConfig == old(c.hostConfig) && c.id == old(c.id)
    ensures forall d :: d in old(c.mountPoints) ==> d in c.mountPoints && c.mountPoints[d] == old(c.mountPoints)[d]
    ensures forall d :: CreateVolume(d) in trace ==>
      !HasMountFor(old(c.mountPoints), c.hostConfig.tmpfs, d) && VolumeCreated(d, fx)
    ensures forall d :: AddMountPoint(d) in trace ==>
      d !in old(c.mountPoints) && VolumeError(d, fx).None? && d in c.mountPoints &&
      c.mountPoints[d] == VolumeMount(d, fx.createVolume(d).value)
    ensures forall d :: d in c.mountPoints ==> d in old(c.mountPoints) || AddMountPoint(d) in trace
    ensures forall s :: s in config.volumes && OverExistingFile(old(c.mountPoints), c.hostConfig.tmpfs, fx, fx.clean(s)) ==>
      err.Some? && CreateVolume(fx.clean(s)) !in trace
    ensures err.None? ==>
      (forall s :: s in config.volumes ==> HasMountFor(c.mountPoints, c.hostConfig.tmpfs, fx.clean(s))) &&
      (forall d :: d in c.mountPoints && Eligible(c.mountPoints[d]) ==> PopulateVolumeError(c.mountPoints[d], fx).None?)
    ensures err.None? <==>
      fx.setupWorkingDir.None? && VolumesAccepted(old(c.mountPoints), c.hostConfig.tmpfs, config.volumes, fx) &&
      (forall d :: d in c.mountPoints && Eligible(c.mountPoints[d]) ==> PopulateVolumeError(c.mountPoints[d], fx).None?)
    ensures fx.setupWorkingDir.None? && !VolumesAccepted(old(c.mountPoints), c.hostConfig.tmpfs, config.volumes, fx) ==>
      (exists s :: s in config.volumes && !HasMountFor(old(c.mountPoints), c.hostConfig.tmpfs, fx.clean(s)) &&
                   err == VolumeError(fx.clean(s), fx)) &&
      (forall e :: e in trace ==> !IsPopulateEffect(e))
    ensures fx.setupWorkingDir.None? && VolumesAccepted(old(c.mountPoints), c.hostConfig.tmpfs, config.volumes, fx) &&
            err.Some? ==>
      exists d :: d in c.mountPoints && Eligible(c.mountPoints[d]) && PopulateVolumeError(c.mountPoints[d], fx) == err
    ensures forall i, j :: 0 <= i < |trace| && 0 <= j < |trace| && IsVolumeEffect(trace[i]) && IsPopulateEffect(trace[j]) ==> i < j
  {
    trace := [SetupWorkingDir];
    if fx.setupWorkingDir.Some? {
      return fx.setupWorkingDir, trace;
    }
    ApplyPathDefaults(c, hostConfig, fx);
    var created;
    err, created := CreateAnonymousVolumes(c, config.volumes, fx);
    var populated := [];
    if err.None? {
      err, populated := PopulateVolumes(c.mountPoints, fx);
    }
    MountedTrace(created, populated);
    trace := trace + created + populated;
  }

  /**
    `createContainerOSSpecificSettings`. When mounting the container fails
    nothing else happens; otherwise the container is unmounted on every way
    out, as the very last effect, after the work done while it is mounted.
  */
  method CreateContainerOSSpecificSettings(c: Container, config: ContainerConfig, hostConfig: HostConfig, fx: Host)
    returns (err: Option<string>, trace: seq<Effect>)
    requires c.hostConfig != null
    modifies c, hostConfig, c.hostConfig
    ensures fx.mount.Some? ==>
      err == fx.mount && trace == [Mount] && c.mountPoints == old(c.mountPoints) &&
      hostConfig.maskedPaths == old(hostConfig.maskedPaths) && hostConfig.readonlyPaths == old(hostConfig.readonlyPaths)
    ensures fx.mount.None? ==>
      |trace| >= 3 && trace[0] == Mount && trace[1] == SetupWorkingDir && trace[|trace| - 1] == Unmount &&
      forall i :: 0 < i < |trace| - 1 ==> trace[i] != Mount && trace[i] != Unmount
    ensures fx.mount.None? && fx.setupWorkingDir.Some? ==>
      err == fx.setupWorkingDir && trace == [Mount, SetupWorkingDir, Unmount] && c.mountPoints == old(c.mountPoints)
    ensures fx.mount.None? && fx.setupWorkingDir.None? ==>
      hostConfig.maskedPaths == DefaultedPaths(old(hostConfig.maskedPaths), old(hostConfig.privileged), fx.defaultMaskedPaths) &&
      hostConfig.readonlyPaths == DefaultedPaths(old(hostConfig.readonlyPaths), old(hostConfig.privileged), fx.defaultReadonlyPaths)
    ensures c.hostConfig == old(c.hostConfig) && c.id == old(c.id)
    ensures forall d :: d in old(c.mountPoints) ==> d in c.mountPoints && c.mountPoints[d] == old(c.mountPoints)[d]
    ensures forall d :: CreateVolume(d) in trace ==>
      !HasMountFor(old(c.mountPoints), c.hostConfig.tmpfs, d) && VolumeCreated(d, fx)
    ensures forall d :: AddMountPoint(d) in trace ==>
      d !in old(c.mountPoints) && VolumeError(d, fx).None? && d in c.mountPoints &&
      c.mountPoints[d] == VolumeMount(d, fx.createVolume(d).value)
    ensures forall d :: d in c.mountPoints ==> d in old(c.mountPoints) || AddMountPoint(d) in trace
    ensures forall s :: s in config.volumes && OverExistingFile(old(c.mountPoints), c.hostConfig.tmpfs, fx, fx.clean(s)) ==>
      err.Some? && CreateVolume(fx.clean(s)) !in trace
    ensures err.None? ==>
      (forall s :: s in config.volumes ==> HasMountFor(c.mountPoints, c.hostConfig.tmpfs, fx.clean(s))) &&
      (forall d :: d in c.mountPoints && Eligible(c.mountPoints[d]) ==> PopulateVolumeError(c.mountPoints[d], fx).None?)
    ensures err.None? <==>
      fx.mount.None? && fx.setupWorkingDir.None? && VolumesAccepted(old(c.mountPoints), c.hostConfig.tmpfs, config.volumes, fx) &&
      (forall d :: d in c.mountPoints && Eligible(c.mountPoints[d]) ==> PopulateVolumeError(c.mountPoints[d], fx).None?)
    ensures fx.mount.None? && fx.setupWorkingDir.None? && !VolumesAccepted(old(c.mountPoints), c.hostConfig.tmpfs, config.volumes, fx) ==>
      (exists s :: s in config.volumes && !HasMountFor(old(c.mountPoints), c.hostConfig.tmpfs, fx.clean(s)) &&
                   err == VolumeError(fx.clean(s), fx)) &&
      (forall e :: e in trace ==> !IsPopulateEffect(e))
    ensures fx.mount.None? && fx.setupWorkingDir.None? && VolumesAccepted(old(c.mountPoints), c.hostConfig.tmpfs, config.volumes, fx) &&
            err.Some? ==>
      exists d :: d in c.mountPoints && Eligible(c.mountPoints[d]) && PopulateVolumeError(c.mountPoints[d], fx) == err
    ensures forall i, j :: 0 <= i < |trace| && 0 <= j < |trace| && IsVolumeEffect(trace[i]) && IsPopulateEffect(trace[j]) ==> i < j
  {
    if fx.mount.Some? {
      return fx.mount, [Mount];
    }
    var mounted;
    err, mounted := WhileMounted(c, config, hostConfig, fx);
    trace := [Mount] + mounted + [Unmount];
    assert forall i :: 0 < i < |trace| - 1 ==> trace[i] == mounted[i - 1] && mounted[i - 1] in mounted;
  }
}
