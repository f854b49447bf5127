/**
  The listener policy of the daemon command (daemon/command/daemon.go): the
  TLS authentication checks, the server TLS configuration's client-auth
  choice, host-list normalisation and listener resolution with its insecure-TCP
  deterrent delays. Foreign helpers (`dopts.ParseHost`, `net.SplitHostPort`,
  the loopback lookup, `allocateDaemonPort`, `listeners.Init`, loading the
  certificate files) are function-typed parameters. Sleeping is returned as a
  delay in seconds per host instead of being performed.
*/
module Listeners {
  import opened Common
  import opened Text

  /** The daemon's default for `--tls` (false: TLS is off unless asked for). */
  const DefaultTLSValue: bool := false

  /** The first, one-second deterrent for TCP without verified client certificates. */
  const ShortDelay: nat := 1
  /** The further deterrent for a non-loopback TCP host without explicit opt-out. */
  const LongDelay: nat := 15

  /**
    `checkTLSAuthOK`: is the TLS posture either verified or an explicit
    opt-out? Only "TLS on, verification unset" is refused outright; when TLS
    is unset the default decides.
  */
  function CheckTLSAuthOK(tls: Option<bool>, tlsVerify: Option<bool>): (ok: bool)
    ensures tls.None? ==> ok == DefaultTLSValue
    ensures tls.Some? ==> (ok <==> (!tls.value || tlsVerify.Some?))
  {
    match tls
    case None => DefaultTLSValue
    case Some(on) => !on || tlsVerify.Some?
  }

  datatype ClientAuth = NoClientCert | RequireAndVerifyClientCert

  datatype TLSOptions = TLSOptions(caFile: string, certFile: string, keyFile: string)

  /** The server-side TLS configuration the API listeners are built with. */
  datatype ServerTLSConfig = ServerTLSConfig(clientAuth: ClientAuth, files: TLSOptions)

  /**
    `newAPIServerTLSConfig`: a server TLS configuration exists only when TLS is
    explicitly on; it requires and verifies client certificates unless
    verification is explicitly off. `loadError` is what loading the
    certificate files would report.
  */
  function NewAPIServerTLSConfig(tls: Option<bool>, tlsVerify: Option<bool>, files: TLSOptions,
                                 loadError: Option<string>): (r: Result<Option<ServerTLSConfig>, string>)
    ensures tls != Some(true) ==> r == Ok(None)
    ensures r.Ok? && r.value.Some? <==> tls == Some(true) && loadError.None?
    ensures r.Ok? && r.value.Some? ==>
      r.value.value.files == files &&
      (r.value.value.clientAuth == RequireAndVerifyClientCert <==> tlsVerify != Some(false))
    ensures r.Err? ==> (tls == Some(true) && loadError.Some? &&
                        r.error == "invalid TLS configuration: " + loadError.value)
  {
    if tls == Some(true) then
      var auth := if tlsVerify.None? || tlsVerify.value then RequireAndVerifyClientCert else NoClientCert;
      match loadError
      case Some(e) => Err("invalid TLS configuration: " + e)
      case None => Ok(Some(ServerTLSConfig(auth, files)))
    else Ok(None)
  }

  /** An empty host list stands for one empty entry, which parses to the default host. */
  function EffectiveHosts(hosts: seq<string>): (hs: seq<string>)
    ensures |hs| > 0
    ensures hosts != [] ==> hs == hosts
  {
    if |hosts| == 0 then [""] else hosts
  }

  /** The TLS value host parsing uses: the configured one, else the default. */
  function UseTLS(tls: Option<bool>): bool {
    if tls.Some? then tls.value else DefaultTLSValue
  }

  /** Every host parsed, in order, or the first parse error. */
  function ParseAll(hs: seq<string>, useTLS: bool, parseHost: (bool, string) -> Result<string, string>)
    : (r: Result<seq<string>, string>)
    ensures r.Ok? <==> forall i :: 0 <= i < |hs| ==> parseHost(useTLS, hs[i]).Ok?
    ensures r.Ok? ==> |r.value| == |hs| && forall i :: 0 <= i < |hs| ==> parseHost(useTLS, hs[i]) == Ok(r.value[i])
    ensures r.Err? ==> exists i :: 0 <= i < |hs| && parseHost(useTLS, hs[i]) == Err(r.error) &&
                                   forall j :: 0 <= j < i ==> parseHost(useTLS, hs[j]).Ok?
    decreases |hs|
  {
    if hs == [] then Ok([])
    else match parseHost(useTLS, hs[0])
      case Err(e) => Err(e)
      case Ok(h) =>
        match ParseAll(hs[1..], useTLS, parseHost)
        case Err(e) =>
          ghost var i :| 0 <= i < |hs| - 1 && parseHost(useTLS, hs[1..][i]) == Err(e) &&
                         forall j :: 0 <= j < i ==> parseHost(useTLS, hs[1..][j]).Ok?;
          assert parseHost(useTLS, hs[i + 1]) == Err(e);
          Err(e)
        case Ok(rest) => Ok([h] + rest)
  }

  /** Sorting the duplicate-free parsed hosts keeps exactly the hosts some entry parses to. */
  lemma SortedParsedHosts(hs: seq<string>, useTLS: bool, parseHost: (bool, string) -> Result<string, string>)
    requires ParseAll(hs, useTLS, parseHost).Ok?
    ensures forall h :: h in Sort(Dedup(ParseAll(hs, useTLS, parseHost).value)) <==>
      exists i :: 0 <= i < |hs| && parseHost(useTLS, hs[i]) == Ok(h)
  {
    var parsed := ParseAll(hs, useTLS, parseHost).value;
    var sorted := Sort(Dedup(parsed));
    assert forall h :: h in sorted <==> h in multiset(sorted);
    assert forall h :: h in Dedup(parsed) <==> h in multiset(Dedup(parsed));
    forall h | h in parsed
      ensures exists i :: 0 <= i < |hs| && parseHost(useTLS, hs[i]) == Ok(h)
    {
      var i :| 0 <= i < |parsed| && parsed[i] == h;
      assert parseHost(useTLS, hs[i]) == Ok(h);
    }
  }

  /**
    The hosts `normalizeHosts` settles on: the first parse error, or the
    parsed hosts sorted with duplicates dropped.
  */
  function NormalizedHosts(hosts: seq<string>, tls: Option<bool>, parseHost: (bool, string) -> Result<string, string>)
    : (r: Result<seq<string>, string>)
    ensures r.Ok? <==> forall i :: 0 <= i < |EffectiveHosts(hosts)| ==> parseHost(UseTLS(tls), EffectiveHosts(hosts)[i]).Ok?
    ensures r.Ok? ==> StrictlySorted(r.value)
    ensures r.Ok? ==> forall h :: h in r.value <==>
      exists i :: 0 <= i < |EffectiveHosts(hosts)| && parseHost(UseTLS(tls), EffectiveHosts(hosts)[i]) == Ok(h)
  {
    match ParseAll(EffectiveHosts(hosts), UseTLS(tls), parseHost)
    case Err(e) => Err(e)
    case Ok(parsed) =>
      var sorted := Sort(Dedup(parsed));
      PermutationKeepsNoDuplicates(Dedup(parsed), sorted);
      SortedDistinctIsStrict(sorted);
      SortedParsedHosts(EffectiveHosts(hosts), UseTLS(tls), parseHost);
      Ok(sorted)
  }

  /**
    `normalizeHosts`: parses every configured host (an empty list is one
    empty entry), drops duplicates and sorts. The first parse error aborts
    with no result. `parseHost` stands for `dopts.ParseHost(useTLS, honorXDG, h)`.
  */
  method NormalizeHosts(hosts: seq<string>, tls: Option<bool>,
                        parseHost: (bool, string) -> Result<string, string>)
    returns (r: Result<seq<string>, string>)
    ensures r == NormalizedHosts(hosts, tls, parseHost)
    ensures var hs := EffectiveHosts(hosts);
      r.Ok? <==> forall i :: 0 <= i < |hs| ==> parseHost(UseTLS(tls), hs[i]).Ok?
    ensures var hs := EffectiveHosts(hosts);
      r.Err? ==> exists i :: (0 <= i < |hs| && parseHost(UseTLS(tls), hs[i]) == Err(r.error) &&
                              forall j :: 0 <= j < i ==> parseHost(UseTLS(tls), hs[j]).Ok?)
    ensures r.Ok? ==> StrictlySorted(r.value)
    ensures var hs := EffectiveHosts(hosts);
      r.Ok? ==> forall x :: x in r.value <==>
                  exists i :: 0 <= i < |hs| && parseHost(UseTLS(tls), hs[i]) == Ok(x)
  {
    var hs := EffectiveHosts(hosts);
    var useTLS := UseTLS(tls);
    ghost var spec := ParseAll(hs, useTLS, parseHost);
    var out: seq<string> := [];
    var seen: set<string> := {};
    var i := 0;
    while i < |hs|
      invariant 0 <= i <= |hs|
      invariant forall j :: 0 <= j < i ==> parseHost(useTLS, hs[j]).Ok?
      invariant forall x :: x in seen <==> x in out
      invariant NoDuplicates(out)
      invariant forall x :: x in out <==> exists j :: 0 <= j < i && parseHost(useTLS, hs[j]) == Ok(x)
    {
      var parsed := parseHost(useTLS, hs[i]);
      if parsed.Err? {
        ghost var k :| 0 <= k < |hs| && parseHost(useTLS, hs[k]) == Err(spec.error) &&
                       forall j :: 0 <= j < k ==> parseHost(useTLS, hs[j]).Ok?;
        assert k == i;
        return Err(parsed.error);
      }
      var host := parsed.value;
      if host !in seen {
        seen := seen + {host};
        out := out + [host];
      }
      i := i + 1;
    }
    var sorted := Sort(out);
    PermutationKeepsNoDuplicates(out, sorted);
    SortedDistinctIsStrict(sorted);
    forall x ensures x in sorted <==> x in out {
      assert x in sorted <==> x in multiset(sorted);
      assert x in out <==> x in multiset(out);
    }
    var expected := Sort(Dedup(spec.value));
    PermutationKeepsNoDuplicates(Dedup(spec.value), expected);
    SortedDistinctIsStrict(expected);
    forall x ensures x in expected <==> x in sorted {
      assert x in expected <==> x in multiset(expected);
      if x in spec.value {
        var j :| 0 <= j < |spec.value| && spec.value[j] == x;
        assert parseHost(useTLS, hs[j]) == Ok(x);
      }
      if x in out {
        var j :| 0 <= j < i && parseHost(useTLS, hs[j]) == Ok(x);
        assert spec.value[j] == x;
      }
    }
    StrictlySortedUnique(sorted, expected);
    r := Ok(sorted);
  }

  /** A bound socket, as `listeners.Init` returns it. */
  datatype Listener = Listener(proto: string, addr: string, fd: nat)

  /** The foreign helpers listener resolution calls. */
  datatype Network = Network(
    splitHostPort: string -> Result<string, string>,
    isLoopback: string -> bool,
    allocatePort: string -> Option<string>,
    initListener: (string, string) -> Result<seq<Listener>, string>)

  /** Client certificates are required and verified by the server TLS configuration. */
  predicate AuthEnabled(tlsConfig: Option<ServerTLSConfig>) {
    tlsConfig.Some? && tlsConfig.value.clientAuth == RequireAndVerifyClientCert
  }

  /**
    The deterrent sleep before binding one host: none for non-TCP or verified
    TCP; one second otherwise, plus fifteen when the TLS posture is not an
    explicit choice and the host is neither "localhost" nor a loopback address.
    A TCP address whose host part cannot be split is an error, wrapping the
    splitter's own message, in that last case.
  */
  function DeterrentDelay(proto: string, addr: string, tlsConfig: Option<ServerTLSConfig>,
                          tlsAuthOK: bool, net: Network): (r: Result<nat, string>)
    ensures proto != "tcp" || AuthEnabled(tlsConfig) ==> r == Ok(0)
    ensures proto == "tcp" && !AuthEnabled(tlsConfig) && tlsAuthOK ==> r == Ok(ShortDelay)
    ensures r.Err? <==> proto == "tcp" && !AuthEnabled(tlsConfig) && !tlsAuthOK && net.splitHostPort(addr).Err?
    ensures r.Err? ==> r.error == "error parsing tcp address: " + net.splitHostPort(addr).error
    ensures r.Ok? && r.value == ShortDelay + LongDelay <==>
      proto == "tcp" && !AuthEnabled(tlsConfig) && !tlsAuthOK && net.splitHostPort(addr).Ok? &&
      net.splitHostPort(addr).value != "localhost" && !net.isLoopback(net.splitHostPort(addr).value)
  {
    if proto == "tcp" && !AuthEnabled(tlsConfig) then
      if !tlsAuthOK then
        match net.splitHostPort(addr)
        case Err(e) => Err("error parsing tcp address: " + e)
        case Ok(ip) =>
          if ip != "localhost" && !net.isLoopback(ip) then Ok(ShortDelay + LongDelay) else Ok(ShortDelay)
      else Ok(ShortDelay)
    else Ok(0)
  }

  /** What one host entry resolves to: the address reported, the sleep and the sockets. */
  datatype Resolved = Resolved(addr: string, delay: nat, listeners: seq<Listener>)

  /** One iteration of `loadListeners`' loop over the configured hosts. */
  function ResolveEntry(protoAddr: string, tlsConfig: Option<ServerTLSConfig>, tlsAuthOK: bool,
                        net: Network): Result<Resolved, string>
  {
    var c := CutAround(protoAddr, "://");
    if !c.found then Err("bad format " + protoAddr + ", expected PROTO://ADDR")
    else
      var proto, addr := c.before, c.after;
      match DeterrentDelay(proto, addr, tlsConfig, tlsAuthOK, net)
      case Err(e) => Err(e)
      case Ok(delay) =>
        if proto == "tcp" && net.allocatePort(addr).Some? then Err(net.allocatePort(addr).value)
        else
          match net.initListener(proto, addr)
          case Err(e) => Err(e)
          case Ok(ls) => Ok(Resolved(addr, delay, ls))
  }

  /**
    One host entry fails with a bad-format error when it has no "://"; when it
    resolves, the entry is the protocol, "://" and the reported address, the
    delay is the deterrent for that protocol and address, a TCP port was
    reserved and the sockets are those bound for that address.
  */
  lemma ResolveEntryFacts(protoAddr: string, tlsConfig: Option<ServerTLSConfig>, tlsAuthOK: bool, net: Network)
    ensures var r := ResolveEntry(protoAddr, tlsConfig, tlsAuthOK, net);
      !CutAround(protoAddr, "://").found ==> r == Err("bad format " + protoAddr + ", expected PROTO://ADDR")
    ensures var r := ResolveEntry(protoAddr, tlsConfig, tlsAuthOK, net);
      r.Ok? ==> protoAddr == CutAround(protoAddr, "://").before + "://" + r.value.addr
    ensures var r := ResolveEntry(protoAddr, tlsConfig, tlsAuthOK, net);
      r.Ok? ==> var c := CutAround(protoAddr, "://");
        c.found && r.value.addr == c.after &&
        DeterrentDelay(c.before, c.after, tlsConfig, tlsAuthOK, net) == Ok(r.value.delay) &&
        (c.before == "tcp" ==> net.allocatePort(c.after).None?) &&
        net.initListener(c.before, c.after) == Ok(r.value.listeners)
  {
  }

  /** The outcome of resolving each host entry on its own, in order. */
  function Resolutions(hosts: seq<string>, tlsConfig: Option<ServerTLSConfig>, tlsAuthOK: bool,
                       net: Network): (rs: seq<Result<Resolved, string>>)
    ensures |rs| == |hosts|
  {
    seq(|hosts|, j requires 0 <= j < |hosts| => ResolveEntry(hosts[j], tlsConfig, tlsAuthOK, net))
  }

  /** The sockets of the first `n` entries, which all resolved, in order. */
  function ListenersOf(rs: seq<Result<Resolved, string>>, n: nat): seq<Listener>
    requires n <= |rs|
    requires forall i :: 0 <= i < n ==> rs[i].Ok?
  {
    if n == 0 then [] else ListenersOf(rs, n - 1) + rs[n - 1].value.listeners
  }

  /** The addresses and sleeps of the first `n` entries, which all resolved, in order. */
  function AddrsOf(rs: seq<Result<Resolved, string>>, n: nat): (a: seq<string>)
    requires n <= |rs|
    requires forall i :: 0 <= i < n ==> rs[i].Ok?
    ensures |a| == n
  {
    if n == 0 then [] else AddrsOf(rs, n - 1) + [rs[n - 1].value.addr]
  }

  function DelaysOf(rs: seq<Result<Resolved, string>>, n: nat): (d: seq<nat>)
    requires n <= |rs|
    requires forall i :: 0 <= i < n ==> rs[i].Ok?
    ensures |d| == n
  {
    if n == 0 then [] else DelaysOf(rs, n - 1) + [rs[n - 1].value.delay]
  }

  lemma {:induction false} AddrsDelaysAt(rs: seq<Result<Resolved, string>>, n: nat, k: nat)
    requires k < n <= |rs|
    requires forall i :: 0 <= i < n ==> rs[i].Ok?
    ensures AddrsOf(rs, n)[k] == rs[k].value.addr && DelaysOf(rs, n)[k] == rs[k].value.delay
  {
    if k < n - 1 {
      AddrsDelaysAt(rs, n - 1, k);
    }
  }

  /** The successful result of `loadListeners`. */
  datatype Loaded = Loaded(listeners: seq<Listener>, hosts: seq<string>, delays: seq<nat>)

  /**
    `loadListeners`: resolves every host in order, failing on an empty list
    and on the first entry that fails, with no partial result. On success it
    reports one address per host (the part after "://"), one sleep per host
    and the sockets of every host in order.
  */
  method LoadListeners(hosts: seq<string>, tlsConfig: Option<ServerTLSConfig>, tlsAuthOK: bool, net: Network)
    returns (r: Result<Loaded, string>)
    ensures hosts == [] ==> r == Err("no hosts configured")
    ensures var rs := Resolutions(hosts, tlsConfig, tlsAuthOK, net);
      r.Ok? <==> hosts != [] && forall i :: 0 <= i < |hosts| ==> rs[i].Ok?
    ensures var rs := Resolutions(hosts, tlsConfig, tlsAuthOK, net);
      r.Err? && hosts != [] ==>
        exists i :: (0 <= i < |hosts| && rs[i] == Err(r.error) && forall j :: 0 <= j < i ==> rs[j].Ok?)
    ensures var rs := Resolutions(hosts, tlsConfig, tlsAuthOK, net);
      r.Ok? ==> |r.value.hosts| == |hosts| && |r.value.delays| == |hosts| &&
                (forall i :: 0 <= i < |hosts| ==>
                   r.value.hosts[i] == rs[i].value.addr && r.value.delays[i] == rs[i].value.delay) &&
                r.value.listeners == ListenersOf(rs, |hosts|)
  {
    if |hosts| == 0 {
      return Err("no hosts configured");
    }
    ghost var rs := Resolutions(hosts, tlsConfig, tlsAuthOK, net);
    var addrs: seq<string> := [];
    var delays: seq<nat> := [];
    var lss: seq<Listener> := [];
    var i := 0;
    while i < |hosts|
      invariant 0 <= i <= |hosts|
      invariant forall j :: 0 <= j < i ==> rs[j].Ok?
      invariant addrs == AddrsOf(rs, i) && delays == DelaysOf(rs, i)
      invariant lss == ListenersOf(rs, i)
    {
      var entry := ResolveEntry(hosts[i], tlsConfig, tlsAuthOK, net);
      assert entry == rs[i];
      if entry.Err? {
        return Err(entry.error);
      }
      addrs := addrs + [entry.value.addr];
      delays := delays + [entry.value.delay];
      lss := lss + entry.value.listeners;
      i := i + 1;
    }
    forall k | 0 <= k < |hosts| ensures addrs[k] == rs[k].value.addr && delays[k] == rs[k].value.delay {
      AddrsDelaysAt(rs, |hosts|, k);
    }
    r := Ok(Loaded(lss, addrs, delays));
  }

  /**
    The deterrent a resolved TCP entry gets under each TLS posture, with the
    server TLS configuration and the authentication check derived from the
    same `TLS`/`TLSVerify` values: none when TLS verifies client certificates,
    one second when TLS or verification is explicitly off, and one plus
    fifteen seconds when TLS is left unset and the host is remote.
  */
  lemma PostureDelay(tls: Option<bool>, tlsVerify: Option<bool>, files: TLSOptions, loadError: Option<string>,
                     protoAddr: string, net: Network)
    requires NewAPIServerTLSConfig(tls, tlsVerify, files, loadError).Ok?
    ensures var tlsConfig := NewAPIServerTLSConfig(tls, tlsVerify, files, loadError).value;
      var r := ResolveEntry(protoAddr, tlsConfig, CheckTLSAuthOK(tls, tlsVerify), net);
      var c := CutAround(protoAddr, "://");
      r.Ok? && c.before == "tcp" ==>
        (tls == Some(true) && tlsVerify != Some(false) ==> r.value.delay == 0) &&
        (tls == Some(false) || (tls == Some(true) && tlsVerify == Some(false)) ==> r.value.delay == ShortDelay) &&
        (tls.None? ==>
           (r.value.delay == ShortDelay + LongDelay <==>
              net.splitHostPort(c.after).value != "localhost" && !net.isLoopback(net.splitHostPort(c.after).value)))
  {
    var tlsConfig := NewAPIServerTLSConfig(tls, tlsVerify, files, loadError).value;
    ResolveEntryFacts(protoAddr, tlsConfig, CheckTLSAuthOK(tls, tlsVerify), net);
  }

  /** With verified client certificates no resolved host is ever delayed. */
  lemma VerifiedTLSNeverDelays(hosts: seq<string>, tlsConfig: Option<ServerTLSConfig>, tlsAuthOK: bool, net: Network)
    requires AuthEnabled(tlsConfig)
    ensures var rs := Resolutions(hosts, tlsConfig, tlsAuthOK, net);
      forall i :: 0 <= i < |hosts| && rs[i].Ok? ==> rs[i].value.delay == 0
  {
    var rs := Resolutions(hosts, tlsConfig, tlsAuthOK, net);
    forall i | 0 <= i < |hosts| && rs[i].Ok? ensures rs[i].value.delay == 0 {
      assert rs[i] == ResolveEntry(hosts[i], tlsConfig, tlsAuthOK, net);
      ResolveEntryFacts(hosts[i], tlsConfig, tlsAuthOK, net);
    }
  }
}
