/**
  The build API's request handling (daemon/server/router/build/build_routes.go):
  reading the build options from a request's form, parsing the builder
  version, the byte limits of a cache prune, cancelling a build, and how
  `postBuild` reports an error depending on whether output already reached
  the client. JSON decoding, integer parsing, `%q` quoting, isolation
  validation and the build itself are parameters.
*/
module BuildRoutes {
  import opened Common

  /** A request's parsed form: every key with the values given for it, in order. */
  type Form = map<string, seq<string>>

  /** `r.FormValue(key)`: the first value of a key, empty when it is absent. */
  function FormValue(form: Form, key: string): string {
    if key in form && |form[key]| > 0 then form[key][0] else ""
  }

  /** `r.Form[key]`: every value of a key, none when it is absent. */
  function FormValues(form: Form, key: string): seq<string> {
    if key in form then form[key] else []
  }

  /** The characters `unicode.IsSpace` accepts. */
  predicate IsSpace(c: char) {
    c in {'\t', '\n', '\U{0B}', '\U{0C}', '\r', ' ', '\U{85}', '\U{A0}', '\U{1680}',
          '\U{2028}', '\U{2029}', '\U{202F}', '\U{205F}', '\U{3000}'} ||
    '\U{2000}' <= c <= '\U{200A}'
  }

  function TrimLeft(s: string): string {
    if |s| > 0 && IsSpace(s[0]) then TrimLeft(s[1..]) else s
  }

  function TrimRight(s: string): string {
    if |s| > 0 && IsSpace(s[|s| - 1]) then TrimRight(s[..|s| - 1]) else s
  }

  /** `strings.TrimSpace`. */
  function TrimSpace(s: string): string {
    TrimRight(TrimLeft(s))
  }

  /** Lower-casing of the ASCII letters. */
  function ToLowerASCII(s: string): string {
    seq(|s|, i requires 0 <= i < |s| => if 'A' <= s[i] <= 'Z' then (s[i] as int + 32) as char else s[i])
  }

  /** A form value read as a boolean: true unless, trimmed and lower-cased, it is empty, "0", "no", "false" or "none". */
  predicate Truthy(s: string) {
    ToLowerASCII(TrimSpace(s)) !in {"", "0", "no", "false", "none"}
  }

  /** `httputils.BoolValue`. */
  predicate BoolValue(form: Form, key: string) {
    Truthy(FormValue(form, key))
  }

  /** An API version as `major.minor`, compared component by component. */
  datatype APIVersion = APIVersion(major: nat, minor: nat)

  /** `versions.GreaterThanOrEqualTo(version, "major.minor")`. */
  predicate AtLeast(v: APIVersion, major: nat, minor: nat) {
    v.major > major || (v.major == major && v.minor >= minor)
  }

  /**
    An error a handler returns: an invalid-parameter error (answered with
    400 Bad Request) or an error passed on as it is.
  */
  datatype BuildError = InvalidParam(msg: string) | Unclassified(msg: string)

  /** The JSON-encoded form values the options decode, by the Go type they decode into. */
  datatype JSONTarget = OutputsJSON | UlimitsJSON | BuildArgsJSON | LabelsJSON | CacheFromJSON | FiltersJSON

  /**
    The parsers the handlers call: `strconv.ParseInt`, `strconv.Atoi`,
    `json.Unmarshal` into each target (its error, if any),
    `container.Isolation.IsValid` and `%q` quoting.
  */
  datatype Parsers = Parsers(
    parseInt: string -> Result<int, string>,
    atoi: string -> Result<int, string>,
    decodeJSON: (JSONTarget, string) -> Option<string>,
    isolationValid: string -> bool,
    quote: string -> string)

  /** The builder that runs a build (`build.BuilderVersion`). */
  datatype BuilderVersion = BuilderV1 | BuilderBuildKit

  /** The value of a builder version on the wire. */
  function VersionString(v: BuilderVersion): string {
    match v
    case BuilderV1 => "1"
    case BuilderBuildKit => "2"
  }

  /**
    `parseVersion`: only the two known builder versions are accepted, each
    from its own wire value; anything else is an invalid parameter.
  */
  function ParseVersion(s: string, quote: string -> string): (r: Result<BuilderVersion, BuildError>)
    ensures r.Ok? <==> s == "1" || s == "2"
    ensures r.Ok? ==> VersionString(r.value) == s
    ensures r.Err? ==> r.error == InvalidParam("invalid version " + quote(s))
  {
    if s == VersionString(BuilderV1) then Ok(BuilderV1)
    else if s == VersionString(BuilderBuildKit) then Ok(BuilderBuildKit)
    else Err(InvalidParam("invalid version " + quote(s)))
  }

  /** Parsing the wire value of a builder version gives that version back. */
  lemma ParseVersionRoundTrip(v: BuilderVersion, quote: string -> string)
    ensures ParseVersion(VersionString(v), quote) == Ok(v)
  {
  }

  /**
    The build options read from a request (`build.ImageBuildOptions`). The
    JSON-encoded options are kept as the text that decoded without error.
  */
  datatype ImageBuildOptions = ImageBuildOptions(
    version: BuilderVersion,
    dockerfile: string,
    suppressOutput: bool,
    noCache: bool,
    forceRemove: bool,
    pullParent: bool,
    memorySwap: int,
    memory: int,
    cpuShares: int,
    cpuPeriod: int,
    cpuQuota: int,
    cpuSetCPUs: string,
    cpuSetMems: string,
    cgroupParent: string,
    networkMode: string,
    tags: seq<string>,
    extraHosts: seq<string>,
    squash: bool,
    target: string,
    remoteContext: string,
    sessionID: string,
    buildID: string,
    remove: bool,
    platform: string,
    outputs: Option<string>,
    shmSize: int,
    isolation: string,
    ulimits: Option<string>,
    buildArgs: Option<string>,
    labels: Option<string>,
    cacheFrom: Option<string>)

  const SecurityOptError: string := "security options are not supported on linux"

  /** `httputils.Int64ValueOrZero`: the integer value of a form field, 0 when it is absent or does not parse. */
  function IntValueOrZero(form: Form, key: string, p: Parsers): int {
    var r := p.parseInt(FormValue(form, key));
    if FormValue(form, key) != "" && r.Ok? then r.value else 0
  }

  /** Whether intermediate containers are removed after a build. */
  predicate RemoveFlag(form: Form) {
    if BoolValue(form, "forcerm") then true
    else if FormValue(form, "rm") == "" then true
    else BoolValue(form, "rm")
  }

  /** The error of decoding a JSON-encoded form value, when it is given and does not decode. */
  function JSONError(form: Form, key: string, target: JSONTarget, p: Parsers): Option<string> {
    if FormValue(form, key) != "" then p.decodeJSON(target, FormValue(form, key)) else None
  }

  /** A JSON-encoded option: its text when it is given, none otherwise. */
  function JSONOption(form: Form, key: string): Option<string> {
    if FormValue(form, key) != "" then Some(FormValue(form, key)) else None
  }

  /**
    Whether a request's build options are acceptable: no security options;
    from API 1.40, outputs that decode; a shared memory size that parses; a
    valid isolation; ulimits, build arguments, labels and cache sources that
    decode; and a known builder version. Each is required only when the
    field is given.
  */
  predicate OptionsAccepted(form: Form, version: APIVersion, p: Parsers) {
    "securityopt" !in form &&
    (AtLeast(version, 1, 40) && FormValue(form, "outputs") != "" ==>
       p.decodeJSON(OutputsJSON, FormValue(form, "outputs")).None?) &&
    (FormValue(form, "shmsize") != "" ==> p.parseInt(FormValue(form, "shmsize")).Ok?) &&
    (FormValue(form, "isolation") != "" ==> p.isolationValid(FormValue(form, "isolation"))) &&
    (FormValue(form, "ulimits") != "" ==> p.decodeJSON(UlimitsJSON, FormValue(form, "ulimits")).None?) &&
    (FormValue(form, "buildargs") != "" ==> p.decodeJSON(BuildArgsJSON, FormValue(form, "buildargs")).None?) &&
    (FormValue(form, "labels") != "" ==> p.decodeJSON(LabelsJSON, FormValue(form, "labels")).None?) &&
    (FormValue(form, "cachefrom") != "" ==> p.decodeJSON(CacheFromJSON, FormValue(form, "cachefrom")).None?) &&
    FormValue(form, "version") in {"", "1", "2"}
  }

  /**
    The first error `newImageBuildOptions` reports, in the order it checks:
    security options, outputs (from API 1.40), the shared memory size, the
    isolation, the ulimits, build arguments, labels, cache sources and the
    builder version.
  */
  function OptionsError(form: Form, version: APIVersion, p: Parsers): (r: Option<BuildError>)
    ensures r.None? <==> OptionsAccepted(form, version, p)
    ensures "securityopt" in form ==> r == Some(InvalidParam(SecurityOptError))
    ensures "securityopt" !in form && AtLeast(version, 1, 40) && FormValue(form, "outputs") != "" &&
            p.decodeJSON(OutputsJSON, FormValue(form, "outputs")).Some? ==>
      r == Some(InvalidParam("invalid outputs specified: " + p.decodeJSON(OutputsJSON, FormValue(form, "outputs")).value))
    ensures FormValue(form, "version") !in {"", "1", "2"} ==> r.Some?
    ensures r.Some? && r.value.Unclassified? ==>
      FormValue(form, "shmsize") != "" && p.parseInt(FormValue(form, "shmsize")).Err? &&
      r.value.msg == p.parseInt(FormValue(form, "shmsize")).error
    ensures r.None? && FormValue(form, "version") != "" ==> ParseVersion(FormValue(form, "version"), p.quote).Ok?
    ensures r.None? && FormValue(form, "shmsize") != "" ==> p.parseInt(FormValue(form, "shmsize")).Ok?
  {
    var shm := FormValue(form, "shmsize");
    var iso := FormValue(form, "isolation");
    var bv := FormValue(form, "version");
    if "securityopt" in form then Some(InvalidParam(SecurityOptError))
    else if AtLeast(version, 1, 40) && JSONError(form, "outputs", OutputsJSON, p).Some? then
      Some(InvalidParam("invalid outputs specified: " + JSONError(form, "outputs", OutputsJSON, p).value))
    else if shm != "" && p.parseInt(shm).Err? then Some(Unclassified(p.parseInt(shm).error))
    else if iso != "" && !p.isolationValid(iso) then Some(InvalidParam("unsupported isolation: " + p.quote(iso)))
    else if JSONError(form, "ulimits", UlimitsJSON, p).Some? then
      Some(InvalidParam("error reading ulimit settings: " + JSONError(form, "ulimits", UlimitsJSON, p).value))
    else if JSONError(form, "buildargs", BuildArgsJSON, p).Some? then
      Some(InvalidParam("error reading build args: " + JSONError(form, "buildargs", BuildArgsJSON, p).value))
    else if JSONError(form, "labels", LabelsJSON, p).Some? then
      Some(InvalidParam("error reading labels: " + JSONError(form, "labels", LabelsJSON, p).value))
    else if JSONError(form, "cachefrom", CacheFromJSON, p).Some? then
      Some(InvalidParam("error reading cache-from: " + JSONError(form, "cachefrom", CacheFromJSON, p).value))
    else if bv != "" && ParseVersion(bv, p.quote).Err? then Some(ParseVersion(bv, p.quote).error)
    else None
  }

  /** The options of a request whose form passed every check. */
  function ReadOptions(form: Form, version: APIVersion, p: Parsers): (o: ImageBuildOptions)
    ensures o.remove <==> BoolValue(form, "forcerm") || FormValue(form, "rm") == "" || BoolValue(form, "rm")
    ensures !BoolValue(form, "forcerm") && FormValue(form, "rm") != "" ==> o.remove == BoolValue(form, "rm")
    ensures o.platform == (if AtLeast(version, 1, 32) then FormValue(form, "platform") else "")
    ensures o.outputs.Some? <==> AtLeast(version, 1, 40) && FormValue(form, "outputs") != ""
    ensures FormValue(form, "version") == "" ==> o.version == BuilderV1
    ensures o.squash == BoolValue(form, "squash") && o.suppressOutput == BoolValue(form, "q")
  {
    var shm := FormValue(form, "shmsize");
    var bv := FormValue(form, "version");
    ImageBuildOptions(
      version := if bv != "" && ParseVersion(bv, p.quote).Ok? then ParseVersion(bv, p.quote).value else BuilderV1,
      dockerfile := FormValue(form, "dockerfile"),
      suppressOutput := BoolValue(form, "q"),
      noCache := BoolValue(form, "nocache"),
      forceRemove := BoolValue(form, "forcerm"),
      pullParent := BoolValue(form, "pull"),
      memorySwap := IntValueOrZero(form, "memswap", p),
      memory := IntValueOrZero(form, "memory", p),
      cpuShares := IntValueOrZero(form, "cpushares", p),
      cpuPeriod := IntValueOrZero(form, "cpuperiod", p),
      cpuQuota := IntValueOrZero(form, "cpuquota", p),
      cpuSetCPUs := FormValue(form, "cpusetcpus"),
      cpuSetMems := FormValue(form, "cpusetmems"),
      cgroupParent := FormValue(form, "cgroupparent"),
      networkMode := FormValue(form, "networkmode"),
      tags := FormValues(form, "t"),
      extraHosts := FormValues(form, "extrahosts"),
      squash := BoolValue(form, "squash"),
      target := FormValue(form, "target"),
      remoteContext := FormValue(form, "remote"),
      sessionID := FormValue(form, "session"),
      buildID := FormValue(form, "buildid"),
      remove := RemoveFlag(form),
      platform := if AtLeast(version, 1, 32) then FormValue(form, "platform") else "",
      outputs := if AtLeast(version, 1, 40) then JSONOption(form, "outputs") else None,
      shmSize := if shm != "" && p.parseInt(shm).Ok? then p.parseInt(shm).value else 0,
      isolation := FormValue(form, "isolation"),
      ulimits := JSONOption(form, "ulimits"),
      buildArgs := JSONOption(form, "buildargs"),
      labels := JSONOption(form, "labels"),
      cacheFrom := JSONOption(form, "cachefrom"))
  }

  /**
    `newImageBuildOptions`: the build options of a request, or the first
    error among its fields. Security options are refused on Linux;
    intermediate containers are removed when `forcerm` is set or `rm` is
    absent, and otherwise as `rm` says; the platform is read from API 1.32
    and the outputs from API 1.40; the builder version is V1 unless the
    request names a known one. Every error is an invalid parameter except a
    malformed shared memory size, which is passed on as it is.
  */
  function NewImageBuildOptions(form: Form, version: APIVersion, p: Parsers): (r: Result<ImageBuildOptions, BuildError>)
    ensures r.Ok? <==> OptionsAccepted(form, version, p)
    ensures "securityopt" in form ==> r == Err(InvalidParam(SecurityOptError))
    ensures r.Ok? ==> (r.value.remove <==> BoolValue(form, "forcerm") || FormValue(form, "rm") == "" || BoolValue(form, "rm"))
    ensures r.Ok? && !BoolValue(form, "forcerm") && FormValue(form, "rm") != "" ==> r.value.remove == BoolValue(form, "rm")
    ensures r.Ok? ==> r.value.platform == (if AtLeast(version, 1, 32) then FormValue(form, "platform") else "")
    ensures r.Ok? ==> (r.value.outputs.Some? <==> AtLeast(version, 1, 40) && FormValue(form, "outputs") != "")
    ensures r.Ok? && FormValue(form, "version") == "" ==> r.value.version == BuilderV1
    ensures r.Ok? ==> r.value.squash == BoolValue(form, "squash") && r.value.suppressOutput == BoolValue(form, "q")
    ensures r.Ok? && FormValue(form, "version") != "" ==> VersionString(r.value.version) == FormValue(form, "version")
    ensures FormValue(form, "version") !in {"", "1", "2"} ==> r.Err?
    ensures r.Err? && r.error.Unclassified? ==>
      FormValue(form, "shmsize") != "" && p.parseInt(FormValue(form, "shmsize")).Err? &&
      r.error.msg == p.parseInt(FormValue(form, "shmsize")).error
  {
    match OptionsError(form, version, p)
    case Some(e) => Err(e)
    case None => Ok(ReadOptions(form, version, p))
  }

  /** Two forms that agree on every key but `key`. */
  ghost predicate AgreeExcept(form: Form, other: Form, key: string) {
    forall k :: k != key ==> (k in form <==> k in other) && (k in form ==> form[k] == other[k])
  }

  lemma FormValuesAgree(form: Form, other: Form, key: string)
    requires AgreeExcept(form, other, key)
    ensures forall k :: k != key ==> FormValue(form, k) == FormValue(other, k) && FormValues(form, k) == FormValues(other, k)
  {
    forall k | k != key
      ensures FormValue(form, k) == FormValue(other, k) && FormValues(form, k) == FormValues(other, k)
    {
      assert (k in form <==> k in other) && (k in form ==> form[k] == other[k]);
    }
  }

  /** The options a cache prune is run with (`build.CachePruneOptions`); the filters as accepted JSON. */
  datatype PruneOptions = PruneOptions(all: bool, filters: string, reservedSpace: int, maxUsedSpace: int, minFreeSpace: int)

  /**
    `parseBytesFromFormValue`: an absent field is 0 bytes, and a field that is
    not an integer is an invalid parameter naming the field and its value.
  */
  function ParseBytes(form: Form, name: string, atoi: string -> Result<int, string>): (r: Result<int, BuildError>)
    ensures FormValue(form, name) == "" ==> r == Ok(0)
    ensures FormValue(form, name) != "" ==> (r.Ok? <==> atoi(FormValue(form, name)).Ok?)
    ensures r.Ok? && FormValue(form, name) != "" ==> r.value == atoi(FormValue(form, name)).value
    ensures r.Err? ==> r.error == InvalidParam(name + " is in bytes and expects an integer, got " +
                                               FormValue(form, name) + ": " + atoi(FormValue(form, name)).error)
  {
    var fv := FormValue(form, name);
    if fv == "" then Ok(0)
    else match atoi(fv)
      case Err(e) => Err(InvalidParam(name + " is in bytes and expects an integer, got " + fv + ": " + e))
      case Ok(n) => Ok(n)
  }

  /** The reserved space from API 1.48: `reserved-space`, or the deprecated `keep-storage` when that is 0. */
  function ReservedSpace(form: Form, atoi: string -> Result<int, string>): Result<int, BuildError> {
    match ParseBytes(form, "reserved-space", atoi)
    case Err(e) => Err(e)
    case Ok(n) => if n == 0 then ParseBytes(form, "keep-storage", atoi) else Ok(n)
  }

  /**
    The prune options `postPrune` reads from a request: the filters (absent
    filters decode to none), then
    the byte limits. From API 1.48 the reserved space comes from
    `reserved-space`, falling back to `keep-storage` only when that is 0, and
    the maximum used and minimum free space are read; before 1.48 only
    `keep-storage` is read, as the reserved space.
  */
  function PruneOptionsFor(form: Form, version: APIVersion, p: Parsers): (r: Result<PruneOptions, BuildError>)
    ensures JSONError(form, "filters", FiltersJSON, p).Some? ==>
      r == Err(Unclassified(JSONError(form, "filters", FiltersJSON, p).value))
    ensures r.Err? && r.error.Unclassified? ==> JSONError(form, "filters", FiltersJSON, p).Some?
    ensures r.Ok? ==> r.value.all == BoolValue(form, "all") && r.value.filters == FormValue(form, "filters")
    ensures AtLeast(version, 1, 48) && r.Ok? ==>
      var rs := ParseBytes(form, "reserved-space", p.atoi);
      rs.Ok? &&
      (rs.value != 0 ==> r.value.reservedSpace == rs.value) &&
      (rs.value == 0 ==> Ok(r.value.reservedSpace) == ParseBytes(form, "keep-storage", p.atoi)) &&
      Ok(r.value.maxUsedSpace) == ParseBytes(form, "max-used-space", p.atoi) &&
      Ok(r.value.minFreeSpace) == ParseBytes(form, "min-free-space", p.atoi)
    ensures AtLeast(version, 1, 48) && JSONError(form, "filters", FiltersJSON, p).None? ==>
      (r.Ok? <==>
        ParseBytes(form, "reserved-space", p.atoi).Ok? &&
        (ParseBytes(form, "reserved-space", p.atoi).value == 0 ==> ParseBytes(form, "keep-storage", p.atoi).Ok?) &&
        ParseBytes(form, "max-used-space", p.atoi).Ok? && ParseBytes(form, "min-free-space", p.atoi).Ok?)
    ensures !AtLeast(version, 1, 48) && JSONError(form, "filters", FiltersJSON, p).None? ==>
      (r.Ok? <==> ParseBytes(form, "keep-storage", p.atoi).Ok?)
    ensures !AtLeast(version, 1, 48) && r.Ok? ==>
      Ok(r.value.reservedSpace) == ParseBytes(form, "keep-storage", p.atoi) &&
      r.value.maxUsedSpace == 0 && r.value.minFreeSpace == 0
  {
    var filters := FormValue(form, "filters");
    var all := BoolValue(form, "all");
    match JSONError(form, "filters", FiltersJSON, p)
    case Some(e) => Err(Unclassified(e))
    case None =>
      if AtLeast(version, 1, 48) then
        match ReservedSpace(form, p.atoi)
        case Err(e) => Err(e)
        case Ok(rs) =>
          match ParseBytes(form, "max-used-space", p.atoi)
          case Err(e) => Err(e)
          case Ok(mu) =>
            match ParseBytes(form, "min-free-space", p.atoi)
            case Err(e) => Err(e)
            case Ok(mf) => Ok(PruneOptions(all, filters, rs, mu, mf))
      else
        match ParseBytes(form, "keep-storage", p.atoi)
        case Err(e) => Err(e)
        case Ok(ks) => Ok(PruneOptions(all, filters, ks, 0, 0))
  }

  /**
    Before API 1.48 the fields `reserved-space`, `max-used-space` and
    `min-free-space` are not read: none of them changes the outcome.
  */
  lemma {:induction false} NewLimitsIgnoredBefore148(form: Form, other: Form, key: string, version: APIVersion, p: Parsers)
    requires !AtLeast(version, 1, 48)
    requires key in {"reserved-space", "max-used-space", "min-free-space"}
    requires AgreeExcept(form, other, key)
    ensures PruneOptionsFor(form, version, p) == PruneOptionsFor(other, version, p)
  {
    FormValuesAgree(form, other, key);
    assert ParseBytes(form, "keep-storage", p.atoi) == ParseBytes(other, "keep-storage", p.atoi);
  }

  /**
    From API 1.48 the deprecated `keep-storage` field is read only when
    `reserved-space` is absent or 0: otherwise it cannot change the outcome.
  */
  lemma {:induction false} KeepStorageIgnoredWhenReserved(form: Form, other: Form, version: APIVersion, p: Parsers)
    requires AtLeast(version, 1, 48)
    requires AgreeExcept(form, other, "keep-storage")
    requires ParseBytes(form, "reserved-space", p.atoi).Ok? && ParseBytes(form, "reserved-space", p.atoi).value != 0
    ensures PruneOptionsFor(form, version, p) == PruneOptionsFor(other, version, p)
  {
    FormValuesAgree(form, other, "keep-storage");
    assert ParseBytes(form, "reserved-space", p.atoi) == ParseBytes(other, "reserved-space", p.atoi);
    assert ReservedSpace(form, p.atoi) == ReservedSpace(other, p.atoi);
    assert ParseBytes(form, "max-used-space", p.atoi) == ParseBytes(other, "max-used-space", p.atoi);
    assert ParseBytes(form, "min-free-space", p.atoi) == ParseBytes(other, "min-free-space", p.atoi);
  }

  /**
    `postCancel`: a request without a build ID is an invalid parameter;
    otherwise the outcome is the backend's cancellation of that build.
  */
  function PostCancel(form: Form, cancel: string -> Outcome<BuildError>): (r: Outcome<BuildError>)
    ensures FormValue(form, "id") == "" ==> r == Fail(InvalidParam("build ID not provided"))
    ensures FormValue(form, "id") != "" ==> r == cancel(FormValue(form, "id"))
  {
    var id := FormValue(form, "id");
    if id == "" then Fail(InvalidParam("build ID not provided")) else cancel(id)
  }

  /**
    The response stream of a build (`ioutils.WriteFlusher` over the response
    writer): the bytes written to it and whether it was flushed, which it is
    after every write.
  */
  class Output {
    var written: Bytes
    var flushed: bool

    constructor ()
      ensures written == [] && !flushed
    {
      written := [];
      flushed := false;
    }

    method Write(b: Bytes)
      modifies this
      ensures written == old(written) + b && flushed
    {
      written := written + b;
      flushed := true;
    }
  }

  /**
    `errf` in `postBuild`: in quiet mode the buffered output is written
    first, when there is any; then, if nothing has been flushed, the error is
    returned as it is (the client gets an error status), and otherwise it is
    written into the stream as a formatted error and nil is returned.
  */
  method Errf(output: Output, err: BuildError, quiet: bool, notVerbose: Bytes, formatError: BuildError -> Bytes)
    returns (r: Option<BuildError>)
    modifies output
    ensures var pre := old(output.written) + (if quiet && |notVerbose| > 0 then notVerbose else []);
      var flushed := old(output.flushed) || (quiet && |notVerbose| > 0);
      (r.Some? <==> !flushed) &&
      (r.Some? ==> r.value == err && output.written == pre && output.flushed == old(output.flushed)) &&
      (r.None? ==> output.written == pre + formatError(err) && output.flushed)
  {
    if quiet && |notVerbose| > 0 {
      output.Write(notVerbose);
    }
    if !output.flushed {
      return Some(err);
    }
    output.Write(formatError(err));
    r := None;
  }

  /** The bytes a sequence of writes delivers, in order. */
  function Concat(chunks: seq<Bytes>): (r: Bytes)
    ensures chunks == [] ==> r == []
  {
    if chunks == [] then [] else Concat(chunks[..|chunks| - 1]) + chunks[|chunks| - 1]
  }

  /** What the backend did during a build: the progress writes it made, and the image ID or its error. */
  datatype BuildRun = BuildRun(progress: seq<Bytes>, result: Result<string, BuildError>)

  const SquashError: string := "squash is only supported with experimental mode"

  /**
    The part of `postBuild` after the options were accepted: the build's
    progress goes to the response, or to a buffer in quiet mode; a success
    answers with the image ID in quiet mode, and a failure goes through
    `Errf`, so it is written into the stream exactly when something was
    already flushed. Returns the error for the HTTP layer and the bytes
    written to the response.
  */
  method StreamBuild(quiet: bool, run: BuildRun, formatError: BuildError -> Bytes, imageIDLine: string -> Bytes)
    returns (err: Option<BuildError>, written: Bytes)
    ensures run.result.Ok? ==>
      err == None && written == (if quiet then imageIDLine(run.result.value) else Concat(run.progress))
    ensures run.result.Err? ==>
      var flushed := if quiet then Concat(run.progress) != [] else run.progress != [];
      (err.Some? <==> !flushed) && (err.Some? ==> err.value == run.result.error) &&
      written == Concat(run.progress) + (if flushed then formatError(run.result.error) else [])
  {
    var output := new Output();
    var notVerbose: Bytes := [];
    var i := 0;
    while i < |run.progress|
      invariant 0 <= i <= |run.progress|
      invariant quiet ==> notVerbose == Concat(run.progress[..i]) && output.written == [] && !output.flushed
      invariant !quiet ==> notVerbose == [] && output.written == Concat(run.progress[..i]) && output.flushed == (i > 0)
    {
      assert run.progress[..i + 1][..i] == run.progress[..i];
      if quiet {
        notVerbose := notVerbose + run.progress[i];
      } else {
        output.Write(run.progress[i]);
      }
      i := i + 1;
    }
    assert run.progress[..i] == run.progress;
    match run.result {
      case Err(e) =>
        err := Errf(output, e, quiet, notVerbose, formatError);
      case Ok(id) =>
        if quiet {
          output.Write(imageIDLine(id));
        }
        err := None;
    }
    written := output.written;
  }

  /**
    `postBuild`: reads the options, refuses squash without experimental
    mode, then streams the build. An options error and the squash refusal
    come before any output, so both are returned as errors with nothing
    written.
  */
  method PostBuild(form: Form, version: APIVersion, p: Parsers, experimental: bool, run: BuildRun,
                   formatError: BuildError -> Bytes, imageIDLine: string -> Bytes)
    returns (err: Option<BuildError>, written: Bytes)
    ensures NewImageBuildOptions(form, version, p).Err? ==>
      err == Some(NewImageBuildOptions(form, version, p).error) && written == []
    ensures NewImageBuildOptions(form, version, p).Ok? && BoolValue(form, "squash") && !experimental ==>
      err == Some(InvalidParam(SquashError)) && written == []
    ensures NewImageBuildOptions(form, version, p).Ok? && (!BoolValue(form, "squash") || experimental) ==>
      var quiet := BoolValue(form, "q");
      var flushed := if quiet then Concat(run.progress) != [] else run.progress != [];
      (run.result.Ok? ==>
        err == None && written == (if quiet then imageIDLine(run.result.value) else Concat(run.progress))) &&
      (run.result.Err? ==>
        (err.Some? <==> !flushed) && (err.Some? ==> err.value == run.result.error) &&
        written == Concat(run.progress) + (if flushed then formatError(run.result.error) else []))
  {
    var quiet := BoolValue(form, "q");
    var options := NewImageBuildOptions(form, version, p);
    if options.Err? {
      var output := new Output();
      err := Errf(output, options.error, quiet, [], formatError);
      return err, output.written;
    }
    if options.value.squash && !experimental {
      return Some(InvalidParam(SquashError)), [];
    }
    err, written := StreamBuild(options.value.suppressOutput, run, formatError, imageIDLine);
  }
}
