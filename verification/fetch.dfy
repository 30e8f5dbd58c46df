/**
 * The configuration fetch guard of MainActivity: startLauncher decides whether
 * a fetch is needed, updateConfig refuses to start one while another is being
 * initialised, and the completion of GetServerConfigTask classifies the result.
 *
 * The activity keeps the guard in static booleans. The model adds `inFlight`,
 * the number of GetServerConfigTask instances started and not yet completed,
 * so that "at most one fetch at a time" can be stated.
 */
module ConfigFetch {
  import opened Common

  datatype FetchState = FetchState(
    configInitializing: bool,
    configInitialized: bool,
    needSendDeviceInfo: bool,
    needRedrawContent: bool,
    inFlight: nat)

  /** The state of a freshly started process. */
  const Initial: FetchState := FetchState(false, false, false, false, 0)

  /** What updateConfig did with a request. */
  datatype Request = Dropped | Started(forceShowErrorDialog: bool)

  datatype Requested = Requested(state: FetchState, request: Request)

  /** MainActivity.updateConfig: start a fetch unless one is being initialised. */
  function UpdateConfig(s: FetchState, force: bool): (r: Requested)
    ensures s.configInitializing ==> r == Requested(s, Dropped)
    ensures !s.configInitializing ==>
      && r.request == Started(force)
      && r.state.configInitializing
      && r.state.needSendDeviceInfo
      && r.state.needRedrawContent
      && r.state.inFlight == s.inFlight + 1
      && r.state.configInitialized == s.configInitialized
  {
    if s.configInitializing then Requested(s, Dropped)
    else
      Requested(
        s.(needSendDeviceInfo := true, needRedrawContent := true,
           configInitializing := true, inFlight := s.inFlight + 1),
        Started(force))
  }

  /** How the flow continues once GetServerConfigTask reports its result. */
  datatype AfterFetch =
    | Proceed                          // remote log config, then server migration
    | AskDeviceId                      // the device id was not recognised
    | NetworkErrorDialog(offerReset: bool)

  /**
   * The three-way classification of the fetch result. A network error with a
   * cached configuration and no forced dialog carries on like a success.
   * The reset button is offered only on a first manual setup.
   */
  function Classify(result: TaskResult, force: bool, cached: bool, qrProvisioning: bool): (a: AfterFetch)
    ensures a == Proceed <==> result == TaskSuccess || (result == TaskNetworkError && cached && !force)
    ensures a == AskDeviceId <==> result == TaskError
    ensures a.NetworkErrorDialog? ==> result == TaskNetworkError && a.offerReset == (!cached && !qrProvisioning)
  {
    match result
    case TaskSuccess => Proceed
    case TaskError => AskDeviceId
    case TaskNetworkError =>
      if cached && !force then Proceed
      else NetworkErrorDialog(!cached && !qrProvisioning)
  }

  datatype Fetched = Fetched(state: FetchState, next: AfterFetch)

  /** GetServerConfigTask.onPostExecute: the guard is released, then the result is classified. */
  function OnConfigFetched(s: FetchState, force: bool, result: TaskResult, cached: bool, qrProvisioning: bool): (r: Fetched)
    requires s.inFlight > 0
    ensures !r.state.configInitializing
    ensures r.state.inFlight == s.inFlight - 1
    ensures r.state.configInitialized == s.configInitialized
    ensures r.state.needSendDeviceInfo == s.needSendDeviceInfo
    ensures r.next == Classify(result, force, cached, qrProvisioning)
  {
    Fetched(s.(configInitializing := false, inFlight := s.inFlight - 1),
            Classify(result, force, cached, qrProvisioning))
  }

  /** A network error with a cached configuration takes the success path. */
  lemma CachedNetworkErrorActsAsSuccess(qrProvisioning: bool)
    ensures Classify(TaskNetworkError, false, true, qrProvisioning) == Classify(TaskSuccess, false, true, qrProvisioning)
  {
  }

  /** Facts startLauncher consults besides the fetch flags. */
  datatype LauncherEnv = LauncherEnv(
    appsPending: bool,
    permissionsGranted: bool,
    /** Public build, not device owner, no server URL yet. */
    needsServerUrl: bool,
    deviceIdEmpty: bool,
    cachedConfig: bool)

  datatype LauncherAction =
    | ResumeInstalls                  // loadAndInstallApplications
    | RequestPermissions
    | AskServerUrl
    | EnterDeviceId
    | Refresh(showCachedFirst: bool, request: Request)
    | ShowContent
    | Wait                            // a fetch is being initialised

  datatype Launched = Launched(state: FetchState, action: LauncherAction)

  /** startLauncher gets past pending installs, the permission request and the server and device-id screens. */
  predicate Ready(env: LauncherEnv) {
    !env.appsPending && env.permissionsGranted && !env.needsServerUrl && !env.deviceIdEmpty
  }

  /** MainActivity.startLauncher, reached when the capability gate lets a pass through. */
  function StartLauncher(s: FetchState, env: LauncherEnv): (r: Launched)
    // pending installs resume before anything else, then the screens that block the launcher
    ensures r.action == ResumeInstalls <==> env.appsPending
    ensures r.action == RequestPermissions <==> !env.appsPending && !env.permissionsGranted
    ensures r.action == AskServerUrl <==> !env.appsPending && env.permissionsGranted && env.needsServerUrl
    ensures r.action == EnterDeviceId <==>
      !env.appsPending && env.permissionsGranted && !env.needsServerUrl && env.deviceIdEmpty
    // a ready device that never finished initialisation asks for the configuration
    ensures r.action.Refresh? <==> Ready(env) && !s.configInitialized
    ensures r.action.Refresh? ==> r.action.showCachedFirst == env.cachedConfig
    // the request goes through updateConfig's guard: it is dropped exactly while a fetch is initialising
    ensures r.action.Refresh? ==> (r.action.request == Dropped <==> s.configInitializing)
    ensures r.action.Refresh? && !s.configInitializing ==>
      r.state.configInitializing && r.state.inFlight == s.inFlight + 1 && r.state.needSendDeviceInfo
    // an initialised device shows its content, unless a fetch is being initialised
    ensures r.action == ShowContent <==> Ready(env) && s.configInitialized && !s.configInitializing
    ensures r.action == Wait <==> Ready(env) && s.configInitialized && s.configInitializing
    // only a fetch it starts changes the state
    ensures !(r.action.Refresh? && r.action.request.Started?) ==> r.state == s
  {
    if env.appsPending then Launched(s, ResumeInstalls)
    else if !env.permissionsGranted then Launched(s, RequestPermissions)
    else if env.needsServerUrl then Launched(s, AskServerUrl)
    else if env.deviceIdEmpty then Launched(s, EnterDeviceId)
    else if !s.configInitialized then
      var u := UpdateConfig(s, false);
      Launched(u.state, Refresh(env.cachedConfig, u.request))
    else if !s.configInitializing then Launched(s, ShowContent)
    else Launched(s, Wait)
  }

  /**
   * Calling startLauncher again (another resume, another install broadcast)
   * starts no second fetch: the state after the second call is the state
   * after the first, and a first call that refreshed leaves the second waiting
   * on the guard.
   */
  lemma StartLauncherTwiceStartsOneFetch(s: FetchState, env: LauncherEnv)
    ensures var r1 := StartLauncher(s, env);
      var r2 := StartLauncher(r1.state, env);
      && r2.state == r1.state
      && r2.state.inFlight <= s.inFlight + 1
      && (r1.action.Refresh? ==> r2.action == Refresh(env.cachedConfig, Dropped))
  {
  }

  /** The events that touch the fetch guard. */
  datatype FetchEvent =
    | RequestUpdate(force: bool)     // any caller of updateConfig
    | FetchCompleted                 // GetServerConfigTask finished
    | MigrationSucceeded             // the new server answered the probe
    | ApplicationsPhase              // checkAndUpdateApplications

  /** The guard as the activity writes it: two further places clear configInitializing. */
  function StepAsWritten(s: FetchState, e: FetchEvent): (r: FetchState)
    // the migration callback and checkAndUpdateApplications clear the guard whatever is in flight
    ensures e == ApplicationsPhase ==> !r.configInitializing && r.inFlight == s.inFlight
    ensures e == MigrationSucceeded ==> r.configInitializing && r.inFlight == s.inFlight + 1
  {
    match e
    case RequestUpdate(force) => UpdateConfig(s, force).state
    case FetchCompleted =>
      if s.inFlight == 0 then s
      else s.(configInitializing := false, inFlight := s.inFlight - 1)
    case MigrationSucceeded => UpdateConfig(s.(configInitializing := false), false).state
    case ApplicationsPhase => s.(configInitialized := true, configInitializing := false)
  }

  /** The guard with configInitializing released only by the completion of the fetch it guards. */
  function Step(s: FetchState, e: FetchEvent): (r: FetchState)
    // only the completion of a fetch releases the guard, and a set guard starts nothing
    ensures s.configInitializing && !r.configInitializing ==> e == FetchCompleted && r.inFlight == s.inFlight - 1
    ensures s.configInitializing ==> r.inFlight <= s.inFlight
  {
    match e
    case RequestUpdate(force) => UpdateConfig(s, force).state
    case FetchCompleted =>
      if s.inFlight == 0 then s
      else s.(configInitializing := false, inFlight := s.inFlight - 1)
    case MigrationSucceeded => UpdateConfig(s, false).state
    case ApplicationsPhase => s.(configInitialized := true)
  }

  function RunAsWritten(s: FetchState, events: seq<FetchEvent>): FetchState
    decreases |events|
  {
    if |events| == 0 then s else RunAsWritten(StepAsWritten(s, events[0]), events[1..])
  }

  function Run(s: FetchState, events: seq<FetchEvent>): FetchState
    decreases |events|
  {
    if |events| == 0 then s else Run(Step(s, events[0]), events[1..])
  }

  /** At most one fetch is in flight, and the guard is set exactly while it is. */
  predicate Exclusive(s: FetchState) {
    s.inFlight <= 1 && (s.configInitializing <==> s.inFlight == 1)
  }

  lemma StepKeepsExclusive(s: FetchState, e: FetchEvent)
    requires Exclusive(s)
    ensures Exclusive(Step(s, e))
  {
  }

  /** With the guard released only on completion, fetches never overlap. */
  lemma {:induction false} FetchesNeverOverlap(s: FetchState, events: seq<FetchEvent>)
    requires Exclusive(s)
    decreases |events|
    ensures Exclusive(Run(s, events))
  {
    if |events| > 0 {
      StepKeepsExclusive(s, events[0]);
      FetchesNeverOverlap(Step(s, events[0]), events[1..]);
    }
  }

  /**
   * As written, a push-triggered updateConfig that arrives while the previous
   * cycle's chain is still running is followed by that chain clearing the
   * guard; the next request then starts a second concurrent fetch.
   */
  lemma AsWrittenFetchesOverlap()
    ensures RunAsWritten(Initial, [RequestUpdate(false), FetchCompleted, RequestUpdate(false),
                                   ApplicationsPhase, RequestUpdate(false)]).inFlight == 2
  {
  }

  /** The events of a series of updateConfig calls. */
  function Requests(forces: seq<bool>): (es: seq<FetchEvent>)
    decreases |forces|
    ensures |es| == |forces|
    ensures forall i :: 0 <= i < |es| ==> es[i] == RequestUpdate(forces[i])
  {
    if |forces| == 0 then [] else [RequestUpdate(forces[0])] + Requests(forces[1..])
  }

  /** A burst of requests while no fetch is running starts exactly one fetch. */
  lemma RequestBurstStartsOneFetch(s: FetchState, forces: seq<bool>)
    requires !s.configInitializing
    requires |forces| > 0
    ensures Run(s, Requests(forces)).inFlight == s.inFlight + 1
    ensures Run(s, Requests(forces)).configInitializing
  {
    var events := Requests(forces);
    var s1 := Step(s, events[0]);
    assert events[1..] == Requests(forces[1..]);
    RequestsWhileFetchingAreDropped(s1, forces[1..]);
  }

  /** While a fetch is being initialised, further requests change nothing. */
  lemma {:induction false} RequestsWhileFetchingAreDropped(s: FetchState, forces: seq<bool>)
    requires s.configInitializing
    decreases |forces|
    ensures Run(s, Requests(forces)) == s
  {
    if |forces| > 0 {
      var events := Requests(forces);
      assert Step(s, events[0]) == s;
      assert events[1..] == Requests(forces[1..]);
      RequestsWhileFetchingAreDropped(s, forces[1..]);
    }
  }
}
