/**
  The daemon command's lifecycle (daemon/command/daemon.go): validating the
  authorization plugins, the fire-once stop signal, reloading the
  configuration, and `start` as a sequence of steps whose failures are given
  by an oracle, with deferred clean-ups unwound last-in first-out and the
  API listeners' results read in a fixed order.
*/
module Lifecycle {
  import opened Common
  import opened CliConfig
  import opened DaemonWiring

  /**
    `validateAuthzPlugins`: every requested plugin must be found as an
    authorization plugin; the first that is not is the error. `lookup` stands
    for the plugin getter and returns its error, if any.
  */
  method ValidateAuthzPlugins(requested: seq<string>, lookup: string -> Option<string>) returns (r: Outcome<string>)
    ensures r.Pass? <==> forall i :: 0 <= i < |requested| ==> lookup(requested[i]).None?
    ensures r.Fail? ==> exists i :: (0 <= i < |requested| && lookup(requested[i]) == Some(r.error) &&
                                     forall j :: 0 <= j < i ==> lookup(requested[j]).None?)
  {
    var i := 0;
    while i < |requested|
      invariant 0 <= i <= |requested|
      invariant forall j :: 0 <= j < i ==> lookup(requested[j]).None?
    {
      var err := lookup(requested[i]);
      if err.Some? {
        return Fail(err.value);
      }
      i := i + 1;
    }
    return Pass;
  }

  /** The configuration a reload read, and the foreign parts of applying it. */
  datatype ReloadEnv = ReloadEnv(
    loaded: Result<Config, string>,
    lookupPlugin: string -> Option<string>,
    daemonReload: (Config, Config) -> Result<Config, string>)

  /**
    How a reload ended: the file could not be loaded, an authorization plugin
    is missing (which the daemon treats as fatal), the daemon refused the new
    configuration, or it was applied.
  */
  datatype ReloadOutcome = LoadFailed(error: string) | AuthzFatal(error: string) | DaemonRejected(error: string) | Applied

  /** The daemon command's own state. */
  class DaemonCLI {
    /** Whether `apiShutdown` has been closed. */
    var stopped: bool
    /** How many times `apiShutdown` has been closed; closing it twice would panic. */
    ghost var closes: nat
    /** The daemon's current configuration. */
    var daemonConfig: Config
    /** The authorization middleware installed in the API server. */
    var authz: Authorization
    /** Whether debug logging is on (the process-wide `debug` switch). */
    var debugEnabled: bool

    ghost predicate Valid()
      reads this
    {
      closes == (if stopped then 1 else 0)
    }

    constructor (cfg: Config, authz: Authorization)
      ensures Valid() && !stopped
      ensures daemonConfig == cfg && this.authz == authz && debugEnabled == cfg.debug
    {
      stopped := false;
      closes := 0;
      daemonConfig := cfg;
      this.authz := authz;
      debugEnabled := cfg.debug;
    }

    /**
      `stop`: closes `apiShutdown` the first time it is called and does
      nothing afterwards, so the channel is closed exactly once.
    */
    method Stop()
      requires Valid()
      modifies this
      ensures Valid() && stopped && closes == 1
      ensures closes == old(closes) + (if old(stopped) then 0 else 1)
      ensures daemonConfig == old(daemonConfig) && authz == old(authz) && debugEnabled == old(debugEnabled)
    {
      if !stopped {
        stopped := true;
        closes := closes + 1;
      }
    }

    /**
      `reloadConfig`: a configuration that loads is first checked for its
      authorization plugins (fatal when one is missing), then offered to the
      daemon; only when the daemon accepts it are the authorization plugins
      replaced and, when the file sets `debug`, debug logging switched to
      match. Nothing changes on any other outcome.
    */
    method ReloadConfig(env: ReloadEnv) returns (outcome: ReloadOutcome)
      requires Valid()
      modifies this, authz
      ensures Valid() && stopped == old(stopped) && authz == old(authz)
      ensures env.loaded.Err? ==> outcome == LoadFailed(env.loaded.error)
      ensures outcome != Applied ==>
        daemonConfig == old(daemonConfig) && authz.plugins == old(authz.plugins) && debugEnabled == old(debugEnabled)
      ensures outcome == Applied <==>
        env.loaded.Ok? &&
        (forall i :: 0 <= i < |env.loaded.value.authorizationPlugins| ==>
           env.lookupPlugin(env.loaded.value.authorizationPlugins[i]).None?) &&
        env.daemonReload(old(daemonConfig), env.loaded.value).Ok?
      ensures outcome == Applied ==>
        var cfg := env.loaded.value;
        daemonConfig == env.daemonReload(old(daemonConfig), cfg).value &&
        authz.plugins == cfg.authorizationPlugins &&
        debugEnabled == (if "debug" in cfg.valuesSet then cfg.debug else old(debugEnabled))
    {
      if env.loaded.Err? {
        return LoadFailed(env.loaded.error);
      }
      var cfg := env.loaded.value;
      var valid := ValidateAuthzPlugins(cfg.authorizationPlugins, env.lookupPlugin);
      if valid.Fail? {
        return AuthzFatal(valid.error);
      }
      var reloaded := env.daemonReload(daemonConfig, cfg);
      if reloaded.Err? {
        return DaemonRejected(reloaded.error);
      }
      daemonConfig := reloaded.value;
      authz.SetPlugins(cfg.authorizationPlugins);
      if "debug" in cfg.valuesSet {
        if debugEnabled && !cfg.debug {
          debugEnabled := false;
        } else if cfg.debug && !debugEnabled {
          debugEnabled := true;
        }
      }
      return Applied;
    }
  }

  /** The result of serving on one listener: closed by shutdown, or another error. */
  datatype ServeResult = ServerClosed | ServeError(error: string)

  /**
    The error `start` reports for its listeners: the first result that is not
    `ErrServerClosed`, if any.
  */
  function FirstServeError(results: seq<ServeResult>): (e: Option<string>)
    ensures e.None? <==> forall i :: 0 <= i < |results| ==> results[i] == ServerClosed
    decreases |results|
  {
    if results == [] then None
    else if results[0].ServeError? then Some(results[0].error)
    else
      assert forall i :: 1 <= i < |results| ==> results[i] == results[1..][i - 1];
      FirstServeError(results[1..])
  }

  /** The error found is the result of some listener, and every earlier listener was closed. */
  lemma {:induction false} FirstServeErrorIsFirst(results: seq<ServeResult>)
    ensures var e := FirstServeError(results);
      e.Some? ==> exists i :: (0 <= i < |results| && results[i] == ServeError(e.value) &&
                               forall j :: 0 <= j < i ==> results[j] == ServerClosed)
    decreases |results|
  {
    var e := FirstServeError(results);
    if results != [] && !results[0].ServeError? && e.Some? {
      FirstServeErrorIsFirst(results[1..]);
      var i :| 0 <= i < |results[1..]| && results[1..][i] == ServeError(e.value) &&
               forall j :: 0 <= j < i ==> results[1..][j] == ServerClosed;
      assert results[i + 1] == ServeError(e.value);
      assert forall j :: 1 <= j < i + 1 ==> results[j] == results[1..][j - 1];
    }
  }

  /** Reading one more result keeps the first error already found, or takes this one. */
  lemma {:induction false} FirstServeErrorAppend(results: seq<ServeResult>, last: ServeResult)
    ensures FirstServeError(results + [last]) ==
      if FirstServeError(results).Some? then FirstServeError(results)
      else if last.ServeError? then Some(last.error)
      else None
    decreases |results|
  {
    if results != [] {
      assert (results + [last])[1..] == results[1..] + [last];
      FirstServeErrorAppend(results[1..], last);
    }
  }

  /** The number of steps `start` takes before serving. */
  const StageCount: nat := 17

  /** A step of `start`, named by its position: steps run in increasing order. */
  type Stage = i: nat | i < StageCount

  const CheckRootlessKit: Stage := 0
  const CheckRoot: Stage := 1
  const SetUmask: Stage := 2
  const CreateDaemonRoot: Stage := 3
  const CreateExecRoot: Stage := 4
  const CreatePidfileDir: Stage := 5
  const WritePidfile: Stage := 6
  const LoadListeners: Stage := 7
  const InitContainerd: Stage := 8
  const PreNotifyReady: Stage := 9
  const RegisterCDI: Stage := 10
  const InitMiddlewares: Stage := 11
  const NewDaemon: Stage := 12
  const ValidateAuthz: Stage := 13
  const StartMetrics: Stage := 14
  const StartCluster: Stage := 15
  const InitBuildkit: Stage := 16

  /** The error `start` returns when step `s` fails with `e`. */
  function StageError(s: Stage, pidfile: string, e: string): string {
    if s == CheckRootlessKit then "rootless mode needs to be enabled for running with RootlessKit"
    else if s == CheckRoot then
      "dockerd needs to be started with root privileges. To run dockerd in rootless mode as an unprivileged user, see https://docs.docker.com/go/rootless/"
    else if s == CreatePidfileDir then "failed to create pidfile directory: " + e
    else if s == WritePidfile then "failed to start daemon, ensure docker is not running or delete " + pidfile + ": " + e
    else if s == LoadListeners then "failed to load listeners: " + e
    else if s == InitMiddlewares then "failed to start API server: " + e
    else if s == NewDaemon then "failed to start daemon: " + e
    else if s == ValidateAuthz then "failed to validate authorization plugin: " + e
    else if s == StartMetrics then "failed to start metrics server: " + e
    else if s == StartCluster then "failed to start cluster component: " + e
    else if s == InitBuildkit then "error initializing buildkit: " + e
    else e
  }

  /** A clean-up `start` defers. */
  datatype Deferred = DeferRemovePidfile | DeferWaitContainerd | DeferCancel | DeferServerExit

  /** What `start` does, in order. */
  datatype Action =
    | Run(stage: Stage)
    | RemovePidfile | WaitContainerdShutdown | Cancel | DrainServer | CloseServer
    | BuildRouters | NotifyReady | Serve(listener: nat)
    | ClusterCleanup | NotifyStopping | ShutdownDaemon | ShutdownBuildKit | OtelShutdown

  /**
    What a deferred clean-up does when it runs: the server-exit clean-up
    drains the API server when `stop` was called and closes it at once
    otherwise.
  */
  function Perform(d: Deferred, stopCalled: bool): (a: Action)
    ensures a == DrainServer <==> d == DeferServerExit && stopCalled
    ensures a == CloseServer <==> d == DeferServerExit && !stopCalled
  {
    match d
    case DeferRemovePidfile => RemovePidfile
    case DeferWaitContainerd => WaitContainerdShutdown
    case DeferCancel => Cancel
    case DeferServerExit => if stopCalled then DrainServer else CloseServer
  }

  /** The actions deferred clean-ups perform. */
  predicate IsCleanup(a: Action) {
    a.RemovePidfile? || a.WaitContainerdShutdown? || a.Cancel? || a.DrainServer? || a.CloseServer?
  }

  /** Running the deferred clean-ups on return: the last deferred runs first. */
  function Unwind(defers: seq<Deferred>, stopCalled: bool): (r: seq<Action>)
    ensures |r| == |defers|
    ensures forall i :: 0 <= i < |defers| ==> r[i] == Perform(defers[|defers| - 1 - i], stopCalled)
    decreases |defers|
  {
    if defers == [] then []
    else [Perform(defers[|defers| - 1], stopCalled)] + Unwind(defers[..|defers| - 1], stopCalled)
  }

  /**
    Unwinding performs only clean-ups, drains or closes the server exactly
    when the server-exit clean-up was deferred, and runs the first deferred
    clean-up last.
  */
  lemma UnwindFacts(defers: seq<Deferred>, stopCalled: bool)
    ensures forall a :: a in Unwind(defers, stopCalled) ==> IsCleanup(a)
    ensures DrainServer in Unwind(defers, stopCalled) ==> stopCalled
    ensures CloseServer in Unwind(defers, stopCalled) ==> !stopCalled
    ensures DeferServerExit in defers ==> DrainServer in Unwind(defers, stopCalled) || CloseServer in Unwind(defers, stopCalled)
    ensures RemovePidfile in Unwind(defers, stopCalled) <==> DeferRemovePidfile in defers
    ensures defers != [] ==> Unwind(defers, stopCalled)[|defers| - 1] == Perform(defers[0], stopCalled)
  {
    var r := Unwind(defers, stopCalled);
    forall a | a in r ensures IsCleanup(a) && (a == RemovePidfile ==> DeferRemovePidfile in defers) {
      var i :| 0 <= i < |r| && r[i] == a;
      assert defers[|defers| - 1 - i] in defers;
    }
    if DeferServerExit in defers {
      var k :| 0 <= k < |defers| && defers[k] == DeferServerExit;
      assert r[|defers| - 1 - k] == Perform(DeferServerExit, stopCalled);
    }
    if DeferRemovePidfile in defers {
      var k :| 0 <= k < |defers| && defers[k] == DeferRemovePidfile;
      assert r[|defers| - 1 - k] == RemovePidfile;
    }
  }

  /** The teardown `start` performs after serving, in this order. */
  const Teardown: seq<Action> := [ClusterCleanup, NotifyStopping, ShutdownDaemon, ShutdownBuildKit, Cancel]

  /**
    The outside world as `start` sees it: the pidfile path, whether CDI is
    enabled, which steps fail and with what, whether initialising containerd
    hands back a waiter (it may do so even when it fails), the result each
    API listener's server reports, and whether `stop` was called before
    `start` returned.
  */
  datatype StartEnv = StartEnv(
    pidfile: string,
    cdiEnabled: bool,
    fails: Stage -> Option<string>,
    containerdWait: bool,
    serveResults: seq<ServeResult>,
    stopCalled: bool)

  /** The pidfile steps are taken only with a pidfile, CDI registration only when CDI is enabled. */
  predicate Skipped(env: StartEnv, s: Stage) {
    ((s == CreatePidfileDir || s == WritePidfile) && env.pidfile == "") || (s == RegisterCDI && !env.cdiEnabled)
  }

  /** Whether step `s` fails; a skipped step and registering the CDI driver cannot. */
  function StageFails(env: StartEnv, s: Stage): Option<string> {
    if Skipped(env, s) || s == RegisterCDI then None else env.fails(s)
  }

  /** Every step of `start` succeeds. */
  predicate AllStagesPass(env: StartEnv) {
    forall s: Stage :: StageFails(env, s).None?
  }

  /** Step `s` is the first that fails. */
  predicate FirstFailure(env: StartEnv, s: Stage) {
    StageFails(env, s).Some? && forall t: Stage :: t < s ==> StageFails(env, t).None?
  }
  /** A first failure is the only one, and it means not every step passes. */
  lemma FirstFailureUnique(env: StartEnv, s: Stage)
    requires FirstFailure(env, s)
    ensures !AllStagesPass(env)
    ensures forall t: Stage :: FirstFailure(env, t) ==> t == s
  {
  }


  /**
    What step `s` does when it is reached: nothing when it is skipped,
    otherwise it runs; a failing containerd initialisation also cancels the
    context at once.
  */
  function StepActions(env: StartEnv, s: Stage): seq<Action> {
    if Skipped(env, s) then []
    else if s == InitContainerd && StageFails(env, s).Some? then [Run(s), Cancel]
    else [Run(s)]
  }

  /**
    The clean-ups step `s` defers when it is reached: the pidfile removal
    once the pidfile is written; for containerd, the wait for its shutdown
    whenever a waiter is handed back, then, on success, `cancel` and the
    API server's exit.
  */
  function StepDefers(env: StartEnv, s: Stage): seq<Deferred> {
    if Skipped(env, s) then []
    else if s == InitContainerd then
      (if env.containerdWait then [DeferWaitContainerd] else []) +
      (if StageFails(env, s).None? then [DeferCancel, DeferServerExit] else [])
    else if s == WritePidfile && StageFails(env, s).None? then [DeferRemovePidfile]
    else []
  }

  /** What the first `n` steps do, in order. */
  function StepsUpTo(env: StartEnv, n: nat): seq<Action>
    requires n <= StageCount
  {
    if n == 0 then [] else StepsUpTo(env, n - 1) + StepActions(env, n - 1)
  }

  /** The clean-ups the first `n` steps defer, in the order they are deferred. */
  function DefersUpTo(env: StartEnv, n: nat): seq<Deferred>
    requires n <= StageCount
  {
    if n == 0 then [] else DefersUpTo(env, n - 1) + StepDefers(env, n - 1)
  }

  /** How many steps are reached: up to and including the first failure, or all of them. */
  function Reached(failed: Option<Stage>): nat {
    if failed.Some? then failed.value + 1 else StageCount
  }

  /** The pidfile was written: there is one, and no step up to writing it failed. */
  predicate PidfileWritten(env: StartEnv) {
    env.pidfile != "" && forall t: Stage :: t <= WritePidfile ==> StageFails(env, t).None?
  }

  /** Only writing the pidfile and initialising containerd defer clean-ups. */
  lemma {:induction false} DefersUpToShape(env: StartEnv, n: nat)
    requires n <= StageCount
    ensures DefersUpTo(env, n) ==
      (if n > WritePidfile then StepDefers(env, WritePidfile) else []) +
      (if n > InitContainerd then StepDefers(env, InitContainerd) else [])
  {
    if n > 0 {
      DefersUpToShape(env, n - 1);
    }
  }

  /** The first `n` steps only run steps below `n` (and cancel); the readiness step runs once reached. */
  lemma {:induction false} StepsUpToShape(env: StartEnv, n: nat)
    requires n <= StageCount
    ensures forall a :: a in StepsUpTo(env, n) ==> (a.Run? && a.stage < n) || a.Cancel?
    ensures Run(PreNotifyReady) in StepsUpTo(env, n) <==> n > PreNotifyReady
  {
    if n > 0 {
      StepsUpToShape(env, n - 1);
      assert StepsUpTo(env, n) == StepsUpTo(env, n - 1) + StepActions(env, n - 1);
      if n - 1 == PreNotifyReady {
        assert StepActions(env, n - 1)[0] == Run(PreNotifyReady);
      }
    }
  }

  /**
    The steps of `start` up to and including the first failure: returns the
    failing step, if any, the clean-ups deferred by then and what was done.
  */
  method RunStages(env: StartEnv) returns (failed: Option<Stage>, defers: seq<Deferred>, trace: seq<Action>)
    ensures failed.Some? ==> FirstFailure(env, failed.value)
    ensures failed.None? ==> AllStagesPass(env)
    ensures Reached(failed) <= StageCount
    ensures trace == StepsUpTo(env, Reached(failed)) && defers == DefersUpTo(env, Reached(failed))
    ensures forall a :: a in trace ==> a.Run? || a.Cancel?
    ensures Run(PreNotifyReady) in trace <==> Reached(failed) > PreNotifyReady
    ensures Run(PreNotifyReady) in trace ==> DeferServerExit in defers
    ensures DeferRemovePidfile in defers <==> PidfileWritten(env)
    ensures DeferRemovePidfile in defers ==> defers[0] == DeferRemovePidfile
  {
    failed := None;
    defers := [];
    trace := [];
    var i := 0;
    while i < StageCount && failed.None?
      invariant 0 <= i <= StageCount
      invariant failed.None? ==> forall t: Stage :: t < i ==> StageFails(env, t).None?
      invariant failed.Some? ==> FirstFailure(env, failed.value) && i == failed.value + 1
      invariant trace == StepsUpTo(env, i) && defers == DefersUpTo(env, i)
    {
      var s: Stage := i;
      if !Skipped(env, s) {
        var failure := StageFails(env, s);
        trace := trace + [Run(s)];
        if s == InitContainerd {
          if env.containerdWait {
            defers := defers + [DeferWaitContainerd];
          }
          if failure.Some? {
            trace := trace + [Cancel];
          } else {
            defers := defers + [DeferCancel, DeferServerExit];
          }
        } else if failure.None? && s == WritePidfile {
          defers := defers + [DeferRemovePidfile];
        }
        if failure.Some? {
          failed := Some(s);
        }
      }
      i := i + 1;
    }
    assert i == Reached(failed);
    StepsUpToShape(env, i);
    DefersUpToShape(env, i);
  }

  /**
    Serving: each listener's result is read in order and the first that is
    not `ErrServerClosed` is kept.
  */
  method ServeAll(results: seq<ServeResult>) returns (errAPI: Option<string>, trace: seq<Action>)
    ensures errAPI == FirstServeError(results)
    ensures |trace| == |results| && forall i :: 0 <= i < |results| ==> trace[i] == Serve(i)
    ensures forall a :: a in trace ==> a.Serve?
  {
    errAPI := None;
    trace := [];
    var n := 0;
    while n < |results|
      invariant 0 <= n <= |results|
      invariant errAPI == FirstServeError(results[..n])
      invariant |trace| == n && forall j :: 0 <= j < n ==> trace[j] == Serve(j)
      invariant forall a :: a in trace ==> a.Serve?
    {
      assert results[..n + 1] == results[..n] + [results[n]];
      FirstServeErrorAppend(results[..n], results[n]);
      trace := trace + [Serve(n)];
      if results[n].ServeError? && errAPI.None? {
        errAPI := Some(results[n].error);
      }
      n := n + 1;
    }
    assert results[..n] == results;
  }

  /** The teardown sequence occurs in `trace` starting at `k`. */
  predicate TeardownAt(trace: seq<Action>, k: nat) {
    k + |Teardown| <= |trace| && trace[k..k + |Teardown|] == Teardown
  }

  /** The teardown sequence stays where it is when more actions follow. */
  lemma TeardownAtExtend(trace: seq<Action>, more: seq<Action>, k: nat)
    requires TeardownAt(trace, k)
    ensures TeardownAt(trace + more, k)
  {
    assert (trace + more)[k..k + |Teardown|] == trace[k..k + |Teardown|];
  }

  /** Serving on `n` listeners, in order. */
  function ServeActions(n: nat): (r: seq<Action>)
    ensures |r| == n && forall i :: 0 <= i < n ==> r[i] == Serve(i)
  {
    seq(n, i requires 0 <= i => Serve(i))
  }

  /**
    What `start` does after its steps succeeded and before its deferred
    clean-ups run: builds the routers, notifies readiness, serves on the
    `n` listeners, tears down, and shuts OTEL down when asked to.
  */
  function AfterSteps(n: nat, otel: bool): seq<Action> {
    [BuildRouters, NotifyReady] + ServeActions(n) + Teardown + (if otel then [OtelShutdown] else [])
  }

  /** Serving and teardown alone: where each part sits, and which actions occur. */
  lemma AfterStepsFacts(n: nat, otel: bool)
    ensures TeardownAt(AfterSteps(n, otel), 2 + n)
    ensures forall i :: 0 <= i < n ==> AfterSteps(n, otel)[2 + i] == Serve(i)
    ensures OtelShutdown in AfterSteps(n, otel) <==> otel
    ensures ClusterCleanup in AfterSteps(n, otel)
    ensures forall a :: a in AfterSteps(n, otel) ==> !a.Run? && !(a.DrainServer? || a.CloseServer? || a.RemovePidfile?)
  {
    var head := [BuildRouters, NotifyReady] + ServeActions(n);
    var tail := Teardown + (if otel then [OtelShutdown] else []);
    var after := AfterSteps(n, otel);
    assert after == head + tail;
    assert after[|head|] == ClusterCleanup;
    assert after[|head|..|head| + |Teardown|] == Teardown;
    forall a | a in after
      ensures !a.Run? && !(a.DrainServer? || a.CloseServer? || a.RemovePidfile?)
    {
      if a in head {
        if a in ServeActions(n) {
          var i :| 0 <= i < n && ServeActions(n)[i] == a;
        }
      }
    }
    assert OtelShutdown !in head;
    assert OtelShutdown !in Teardown;
    assert otel ==> after[|after| - 1] == OtelShutdown;
  }

  /**
    What a successful start does before its clean-ups: the steps, then
    serving and teardown. The teardown is in one piece, every listener is
    served, OTEL is shut down exactly when asked for, the only steps run are
    the given ones, and nothing drains or closes the server or removes the
    pidfile.
  */
  lemma {:induction false} SuccessTrace(steps: seq<Action>, n: nat, otel: bool)
    requires forall a :: a in steps ==> a.Run? || a.Cancel?
    ensures TeardownAt(steps + AfterSteps(n, otel), |steps| + 2 + n)
    ensures forall i :: 0 <= i < n ==> Serve(i) in steps + AfterSteps(n, otel)
    ensures OtelShutdown in steps + AfterSteps(n, otel) <==> otel
    ensures ClusterCleanup in steps + AfterSteps(n, otel)
    ensures forall a :: a in steps + AfterSteps(n, otel) && a.Run? ==> a in steps
    ensures forall a :: a in steps + AfterSteps(n, otel) ==> !(a.DrainServer? || a.CloseServer? || a.RemovePidfile?)
  {
    var after := AfterSteps(n, otel);
    var t := steps + after;
    AfterStepsFacts(n, otel);
    forall i | 0 <= i < n
      ensures Serve(i) in t
    {
      assert t[|steps| + 2 + i] == after[2 + i];
    }
    assert t[|steps| + 2 + n..|steps| + 2 + n + |Teardown|] == after[2 + n..2 + n + |Teardown|];
    assert OtelShutdown !in steps;
  }

  /**
    Running the deferred clean-ups after `prefix`, which neither drains nor
    closes the server nor removes the pidfile: the server is drained only
    when `stop` was called and closed only when it was not, one of the two
    happens whenever the server-exit clean-up was deferred, a pidfile
    removal is the very last action, and every other action is one of
    `prefix`.
  */
  lemma ClosingTrace(prefix: seq<Action>, defers: seq<Deferred>, stopCalled: bool)
    requires forall a :: a in prefix ==> !(a.DrainServer? || a.CloseServer? || a.RemovePidfile?)
    requires DeferRemovePidfile in defers ==> defers[0] == DeferRemovePidfile
    ensures var t := prefix + Unwind(defers, stopCalled);
      (DrainServer in t ==> stopCalled) && (CloseServer in t ==> !stopCalled) &&
      (DeferServerExit in defers ==> DrainServer in t || CloseServer in t) &&
      (RemovePidfile in t ==> t[|t| - 1] == RemovePidfile) &&
      (RemovePidfile in t <==> DeferRemovePidfile in defers)
    ensures forall a :: !IsCleanup(a) ==> (a in prefix + Unwind(defers, stopCalled) <==> a in prefix)
  {
    UnwindFacts(defers, stopCalled);
  }

  /**
    `start` once every step succeeded: the first serve error that is not
    `ErrServerClosed`, wrapped, and what is done before the clean-ups.
  */
  method ServeAndTearDown(results: seq<ServeResult>) returns (err: Option<string>, after: seq<Action>)
    ensures err == (if FirstServeError(results).Some?
                    then Some("shutting down due to ServeAPI error: " + FirstServeError(results).value)
                    else None)
    ensures after == AfterSteps(|results|, err.None?)
  {
    var errAPI, served := ServeAll(results);
    assert served == ServeActions(|results|);
    var otel := if errAPI.Some? then [] else [OtelShutdown];
    err := if errAPI.Some? then Some("shutting down due to ServeAPI error: " + errAPI.value) else None;
    after := [BuildRouters, NotifyReady] + served + Teardown + otel;
  }

  /** The whole trace of a successful start: the steps, serving and teardown, then the clean-ups. */
  function ServingTrace(steps: seq<Action>, n: nat, otel: bool, defers: seq<Deferred>, stopCalled: bool): seq<Action> {
    steps + AfterSteps(n, otel) + Unwind(defers, stopCalled)
  }

  /** A successful start tears down in one piece, serves every listener and shuts OTEL down when asked. */
  lemma ServingTraceServes(steps: seq<Action>, n: nat, otel: bool, defers: seq<Deferred>, stopCalled: bool)
    requires forall a :: a in steps ==> a.Run? || a.Cancel?
    requires DeferRemovePidfile in defers ==> defers[0] == DeferRemovePidfile
    ensures TeardownAt(ServingTrace(steps, n, otel, defers, stopCalled), |steps| + 2 + n)
    ensures forall i :: 0 <= i < n ==> Serve(i) in ServingTrace(steps, n, otel, defers, stopCalled)
    ensures OtelShutdown in ServingTrace(steps, n, otel, defers, stopCalled) <==> otel
    ensures ClusterCleanup in ServingTrace(steps, n, otel, defers, stopCalled)
  {
    SuccessTrace(steps, n, otel);
    ClosingTrace(steps + AfterSteps(n, otel), defers, stopCalled);
    TeardownAtExtend(steps + AfterSteps(n, otel), Unwind(defers, stopCalled), |steps| + 2 + n);
  }

  /** A successful start drains or closes the API server as `stop` decides and removes the pidfile last. */
  lemma ServingTraceCloses(steps: seq<Action>, n: nat, otel: bool, defers: seq<Deferred>, stopCalled: bool)
    requires forall a :: a in steps ==> a.Run? || a.Cancel?
    requires Run(PreNotifyReady) in steps ==> DeferServerExit in defers
    requires DeferRemovePidfile in defers ==> defers[0] == DeferRemovePidfile
    ensures var t := ServingTrace(steps, n, otel, defers, stopCalled);
      (DrainServer in t ==> stopCalled) && (CloseServer in t ==> !stopCalled) &&
      (Run(PreNotifyReady) in t ==> DrainServer in t || CloseServer in t) &&
      (RemovePidfile in t ==> t[|t| - 1] == RemovePidfile) &&
      (RemovePidfile in t <==> DeferRemovePidfile in defers)
  {
    SuccessTrace(steps, n, otel);
    ClosingTrace(steps + AfterSteps(n, otel), defers, stopCalled);
  }

  /**
    `start` returning after step `s` failed: the error wrapped as the daemon
    wraps it, and the clean-ups deferred so far.
  */
  method StartFailed(env: StartEnv, s: Stage, steps: seq<Action>, defers: seq<Deferred>)
    returns (err: Option<string>, trace: seq<Action>)
    requires FirstFailure(env, s)
    requires forall a :: a in steps ==> a.Run? || a.Cancel?
    requires Run(PreNotifyReady) in steps ==> DeferServerExit in defers
    requires DeferRemovePidfile in defers ==> defers[0] == DeferRemovePidfile
    ensures err == Some(StageError(s, env.pidfile, StageFails(env, s).value))
    ensures trace == steps + Unwind(defers, env.stopCalled)
    ensures ClusterCleanup !in trace && OtelShutdown !in trace
    ensures DrainServer in trace ==> env.stopCalled
    ensures CloseServer in trace ==> !env.stopCalled
    ensures Run(PreNotifyReady) in trace ==> DrainServer in trace || CloseServer in trace
    ensures RemovePidfile in trace ==> trace[|trace| - 1] == RemovePidfile
    ensures RemovePidfile in trace <==> DeferRemovePidfile in defers
  {
    err := Some(StageError(s, env.pidfile, StageFails(env, s).value));
    ClosingTrace(steps, defers, env.stopCalled);
    trace := steps + Unwind(defers, env.stopCalled);
  }

  /**
    `start` once every step succeeded: serving, teardown and the deferred
    clean-ups.
  */
  method StartServing(env: StartEnv, steps: seq<Action>, defers: seq<Deferred>)
    returns (err: Option<string>, trace: seq<Action>)
    requires forall a :: a in steps ==> a.Run? || a.Cancel?
    requires Run(PreNotifyReady) in steps ==> DeferServerExit in defers
    requires DeferRemovePidfile in defers ==> defers[0] == DeferRemovePidfile
    ensures err == (if FirstServeError(env.serveResults).Some?
                    then Some("shutting down due to ServeAPI error: " + FirstServeError(env.serveResults).value)
                    else None)
    ensures trace == steps + AfterSteps(|env.serveResults|, err.None?) + Unwind(defers, env.stopCalled)
    ensures exists k: nat :: TeardownAt(trace, k)
    ensures forall i :: 0 <= i < |env.serveResults| ==> Serve(i) in trace
    ensures OtelShutdown in trace <==> err.None?
    ensures ClusterCleanup in trace
    ensures DrainServer in trace ==> env.stopCalled
    ensures CloseServer in trace ==> !env.stopCalled
    ensures Run(PreNotifyReady) in trace ==> DrainServer in trace || CloseServer in trace
    ensures RemovePidfile in trace ==> trace[|trace| - 1] == RemovePidfile
    ensures RemovePidfile in trace <==> DeferRemovePidfile in defers
  {
    var after;
    err, after := ServeAndTearDown(env.serveResults);
    ServingTraceServes(steps, |env.serveResults|, err.None?, defers, env.stopCalled);
    ServingTraceCloses(steps, |env.serveResults|, err.None?, defers, env.stopCalled);
    trace := steps + after + Unwind(defers, env.stopCalled);
    assert trace == ServingTrace(steps, |env.serveResults|, err.None?, defers, env.stopCalled);
  }

  /**
    `start`. The steps run in order and the first failure is returned
    (wrapped as the daemon wraps it) after the clean-ups deferred so far run
    in reverse; a containerd failure cancels the context at once. When every
    step succeeds the daemon serves on each listener, tears down in a fixed
    order, and returns the first serve error that is not `ErrServerClosed`;
    only without one is OTEL shut down. The API server is drained when `stop`
    was called and closed otherwise; the pidfile, once written, is removed
    last.
  */
  method Start(env: StartEnv) returns (err: Option<string>, trace: seq<Action>)
    ensures forall s: Stage :: FirstFailure(env, s) ==>
      err == Some(StageError(s, env.pidfile, StageFails(env, s).value)) &&
      trace == StepsUpTo(env, s + 1) + Unwind(DefersUpTo(env, s + 1), env.stopCalled) &&
      ClusterCleanup !in trace && OtelShutdown !in trace
    ensures AllStagesPass(env) ==>
      trace == StepsUpTo(env, StageCount) + AfterSteps(|env.serveResults|, err.None?) +
               Unwind(DefersUpTo(env, StageCount), env.stopCalled)
    ensures AllStagesPass(env) ==>
      err == (if FirstServeError(env.serveResults).Some?
              then Some("shutting down due to ServeAPI error: " + FirstServeError(env.serveResults).value)
              else None)
    ensures AllStagesPass(env) ==> exists k: nat :: TeardownAt(trace, k)
    ensures AllStagesPass(env) ==> forall i :: 0 <= i < |env.serveResults| ==> Serve(i) in trace
    ensures OtelShutdown in trace <==> err.None?
    ensures ClusterCleanup in trace <==> AllStagesPass(env)
    ensures DrainServer in trace ==> env.stopCalled
    ensures CloseServer in trace ==> !env.stopCalled
    ensures Run(PreNotifyReady) in trace ==> DrainServer in trace || CloseServer in trace
    ensures AllStagesPass(env) ==> (DrainServer in trace <==> env.stopCalled) && (CloseServer in trace <==> !env.stopCalled)
    ensures RemovePidfile in trace <==> PidfileWritten(env)
    ensures RemovePidfile in trace ==> trace[|trace| - 1] == RemovePidfile
  {
    var failed, defers, steps := RunStages(env);
    if failed.Some? {
      FirstFailureUnique(env, failed.value);
      err, trace := StartFailed(env, failed.value, steps, defers);
    } else {
      err, trace := StartServing(env, steps, defers);
    }
  }
}
