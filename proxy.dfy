/**
  The userland proxy process behind a published port
  (libnetwork/portmapper/proxy_linux.go): the command line it is started
  with, the start handshake over a pipe, and how waiting for the process is
  shared between a background waiter and `Stop` so that it happens at most
  once. Looking up the binary, the pipe, starting, signalling and waiting for
  the process and the handshake's clock are parameters.
*/
module Proxy {
  import opened Common

  const UserlandProxyCommandName: string := "docker-proxy"

  /** The digit character of a value below ten. */
  function Digit(d: nat): char
    requires d < 10
  {
    ('0' as int + d) as char
  }

  predicate IsDigit(c: char) {
    '0' <= c <= '9'
  }

  /** The decimal digits of a natural number, most significant first. */
  function DecimalDigits(n: nat): (s: string)
    ensures |s| >= 1 && forall i :: 0 <= i < |s| ==> IsDigit(s[i])
    ensures s[0] == '0' ==> n == 0
  {
    if n < 10 then [Digit(n)] else DecimalDigits(n / 10) + [Digit(n % 10)]
  }

  /** `strconv.Itoa`: the decimal form of an integer, with a leading '-' when negative. */
  function Itoa(n: int): string {
    if n < 0 then "-" + DecimalDigits(-n) else DecimalDigits(n)
  }

  /** The value of a string of decimal digits. */
  function ParseDigits(s: string): nat
    requires forall i :: 0 <= i < |s| ==> IsDigit(s[i])
  {
    if s == [] then 0
    else
      assert IsDigit(s[|s| - 1]);
      10 * ParseDigits(s[..|s| - 1]) + (s[|s| - 1] as int - '0' as int)
  }

  /** Reading the digits of a natural number back gives the number. */
  lemma {:induction false} ParseDecimalDigits(n: nat)
    ensures ParseDigits(DecimalDigits(n)) == n
  {
    if n >= 10 {
      var s := DecimalDigits(n);
      assert s[..|s| - 1] == DecimalDigits(n / 10);
      ParseDecimalDigits(n / 10);
    }
  }

  /** A port number written by `Itoa` is read back as the same number, sign included. */
  lemma ItoaRoundTrip(n: int)
    ensures n >= 0 ==> ParseDigits(Itoa(n)) == n
    ensures n < 0 ==> Itoa(n)[0] == '-' && ParseDigits(Itoa(n)[1..]) == -n
  {
    if n >= 0 {
      ParseDecimalDigits(n);
    } else {
      assert Itoa(n)[1..] == DecimalDigits(-n);
      ParseDecimalDigits(-n);
    }
  }

  /** One end of a proxied port: its IP address in textual form and its port. */
  datatype Endpoint = Endpoint(ip: string, port: int)

  /**
    The arguments `newProxyCommand` runs the proxy with: the binary's path,
    then the protocol, host address, host port, container address and
    container port, each after its flag, in that order.
  */
  function ProxyArgs(path: string, proto: string, host: Endpoint, container: Endpoint): (args: seq<string>)
    ensures |args| == 11 && args[0] == path
    ensures args[1] == "-proto" && args[2] == proto
    ensures args[3] == "-host-ip" && args[4] == host.ip
    ensures args[5] == "-host-port" && args[6] == Itoa(host.port)
    ensures args[7] == "-container-ip" && args[8] == container.ip
    ensures args[9] == "-container-port" && args[10] == Itoa(container.port)
  {
    [path, "-proto", proto, "-host-ip", host.ip, "-host-port", Itoa(host.port),
     "-container-ip", container.ip, "-container-port", Itoa(container.port)]
  }

  /**
    The binary a proxy runs: the configured path, or, when none is
    configured, the one found by looking up `docker-proxy`, whose failure is
    the error.
  */
  function ProxyPath(proxyPath: string, lookPath: string -> Result<string, string>): (r: Result<string, string>)
    ensures proxyPath != "" ==> r == Ok(proxyPath)
    ensures proxyPath == "" ==> r == lookPath(UserlandProxyCommandName)
  {
    if proxyPath != "" then Ok(proxyPath) else lookPath(UserlandProxyCommandName)
  }

  const StartTimeoutSeconds: nat := 16
  const TimeoutError: string := "Timed out proxy starting the userland proxy"

  /** What the proxy reports on its status pipe, and after how many seconds. */
  datatype Report = Report(
    first: Bytes,                 // what the first two-byte read returned
    rest: Result<Bytes, string>,  // reading the rest of the pipe: its bytes or the error
    seconds: nat)

  /** The two-byte read buffer after the first read: its bytes, zero-padded. */
  function StatusBytes(first: Bytes): (b: Bytes)
    requires |first| <= 2
    ensures |b| == 2 && b[..|first|] == first
  {
    first + seq(2 - |first|, _ => 0)
  }

  /** The bytes of a successful start: "0\n". */
  const StartedOK: Bytes := ['0' as bv8, '\n' as bv8]

  /** A short first read is padded with zero bytes, so only a full "0\n" reads as success. */
  lemma StatusBytesOK(first: Bytes)
    requires |first| <= 2
    ensures StatusBytes(first) == StartedOK <==> first == StartedOK
  {
    if |first| < 2 {
      assert StatusBytes(first)[1] == 0;
    }
  }

  /** Bytes printed with `%s`, one character per byte. */
  function BytesText(b: Bytes): (s: string)
    ensures |s| == |b|
  {
    seq(|b|, i requires 0 <= i < |b| => b[i] as char)
  }

  /**
    The handshake `Start` waits for: success when the first two bytes are
    "0\n"; otherwise an error carrying the rest of what the proxy wrote, or
    the error of reading it. A report that takes 16 seconds or longer loses
    to the timeout.
  */
  function Handshake(report: Report): (r: Option<string>)
    requires |report.first| <= 2
    ensures report.seconds >= StartTimeoutSeconds ==> r == Some(TimeoutError)
    ensures report.seconds < StartTimeoutSeconds ==> (r.None? <==> report.first == StartedOK)
    ensures report.seconds < StartTimeoutSeconds && report.first != StartedOK && report.rest.Ok? ==>
      r == Some("Error starting userland proxy: " + BytesText(report.rest.value))
    ensures report.seconds < StartTimeoutSeconds && report.first != StartedOK && report.rest.Err? ==>
      r == Some("Error reading exit status from userland proxy: " + report.rest.error)
  {
    StatusBytesOK(report.first);
    if report.seconds >= StartTimeoutSeconds then Some(TimeoutError)
    else if StatusBytes(report.first) == StartedOK then None
    else match report.rest
      case Err(e) => Some("Error reading exit status from userland proxy: " + e)
      case Ok(b) => Some("Error starting userland proxy: " + BytesText(b))
  }

  /**
    `proxyCommand`: the command line of one proxy process, whether it was
    started, and the record of waiting for it. `waits` counts the calls of
    `cmd.Wait`.
  */
  class ProxyCommand {
    const path: string
    const args: seq<string>
    var started: bool
    var exitedWait: bool
    var waitError: Option<string>
    ghost var waits: nat

    /** Waiting happens at most once, `exitedWait` records it, and only a started process is waited for. */
    ghost predicate Valid()
      reads this
    {
      waits <= 1 && (exitedWait <==> waits == 1) && (exitedWait ==> started)
    }

    constructor (path: string, args: seq<string>)
      ensures this.path == path && this.args == args
      ensures !started && !exitedWait && waitError == None && waits == 0 && Valid()
    {
      this.path := path;
      this.args := args;
      started := false;
      exitedWait := false;
      waitError := None;
      waits := 0;
    }

    /**
      `Start`: fails when the pipe cannot be opened or the process cannot be
      started; otherwise the process runs and the outcome is the handshake.
    */
    method Start(pipeError: Option<string>, startError: Option<string>, report: Report)
      returns (err: Option<string>)
      requires Valid() && !started && |report.first| <= 2
      modifies this
      ensures Valid() && exitedWait == old(exitedWait) && waitError == old(waitError) && waits == old(waits)
      ensures started <==> pipeError.None? && startError.None?
      ensures pipeError.Some? ==> err == Some("proxy unable to open os.Pipe " + pipeError.value)
      ensures pipeError.None? && startError.Some? ==> err == startError
      ensures started ==> err == Handshake(report)
    {
      if pipeError.Some? {
        return Some("proxy unable to open os.Pipe " + pipeError.value);
      }
      if startError.Some? {
        return startError;
      }
      started := true;
      err := Handshake(report);
    }

    /**
      The background waiter `Start` launches: it waits for the process
      unless `Stop` already did, and records the outcome.
    */
    method BackgroundWait(waitResult: Option<string>)
      requires Valid() && started
      modifies this
      ensures Valid() && exitedWait && started
      ensures old(exitedWait) ==> waits == old(waits) && waitError == old(waitError)
      ensures !old(exitedWait) ==> waits == old(waits) + 1 && waitError == waitResult
    {
      if !exitedWait {
        waits := waits + 1;
        exitedWait := true;
        waitError := waitResult;
      }
    }

    /**
      `Stop`: nothing to do for a process never started; otherwise it is
      interrupted, a signalling failure is returned before any waiting, and
      the wait's error is returned — the one the background waiter recorded
      when it already waited, or that of waiting now.
    */
    method Stop(signalError: Option<string>, waitResult: Option<string>) returns (err: Option<string>)
      requires Valid()
      modifies this
      ensures Valid() && started == old(started) && waitError == old(waitError)
      ensures !started ==> err == None && waits == old(waits) && exitedWait == old(exitedWait)
      ensures started && signalError.Some? ==> err == signalError && waits == old(waits) && exitedWait == old(exitedWait)
      ensures started && signalError.None? && old(exitedWait) ==> err == waitError && waits == old(waits)
      ensures started && signalError.None? && !old(exitedWait) ==> err == waitResult && waits == old(waits) + 1
      ensures started && signalError.None? ==> exitedWait
    {
      if !started {
        return None;
      }
      if signalError.Some? {
        return signalError;
      }
      if exitedWait {
        err := waitError;
      } else {
        err := waitResult;
        waits := waits + 1;
        exitedWait := true;
      }
    }
  }

  /**
    `newProxyCommand`: a command for the proxy binary with `ProxyArgs`, or
    the error of looking the binary up.
  */
  method NewProxyCommand(proto: string, host: Endpoint, container: Endpoint, proxyPath: string,
                         lookPath: string -> Result<string, string>)
    returns (r: Result<ProxyCommand, string>)
    ensures r.Err? <==> ProxyPath(proxyPath, lookPath).Err?
    ensures r.Err? ==> r.error == ProxyPath(proxyPath, lookPath).error
    ensures r.Ok? ==>
      fresh(r.value) && r.value.Valid() && !r.value.started &&
      r.value.path == ProxyPath(proxyPath, lookPath).value &&
      r.value.args == ProxyArgs(r.value.path, proto, host, container)
  {
    var path := ProxyPath(proxyPath, lookPath);
    if path.Err? {
      return Err(path.error);
    }
    var cmd := new ProxyCommand(path.value, ProxyArgs(path.value, proto, host, container));
    r := Ok(cmd);
  }
}
