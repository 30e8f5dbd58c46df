/**
 * The capability gate run by MainActivity.checkAndStartLauncher.
 *
 * Every capability the launcher needs is tracked by an integer kept in the
 * shared preferences: -1 while unresolved, ON once granted (or, for the three
 * MIUI screens, once the screen has been shown), OFF once declined. Each pass
 * visits the capabilities in a fixed order; the first unresolved one that the
 * platform does not grant opens its prompt and ends the pass. A pass that
 * reaches the end starts the launcher.
 */
module CapabilityGate {
  import opened Common

  /** Persisted value of a flag nobody has resolved yet. */
  const Unresolved: int := -1
  /** Const.PREFERENCES_ON. */
  const On: int := 1
  /** Const.PREFERENCES_OFF. */
  const Off: int := 0

  datatype Capability =
    | MiuiPermissions
    | MiuiDeveloper
    | MiuiOptimization
    | UnknownSources
    | Administrator
    | Overlay
    | UsageStatistics
    | AccessibilityService

  predicate IsMiui(c: Capability) {
    c.MiuiPermissions? || c.MiuiDeveloper? || c.MiuiOptimization?
  }

  /** Position of a capability in the order a pass visits it. */
  function Rank(c: Capability): nat {
    match c
    case MiuiPermissions => 0
    case MiuiDeveloper => 1
    case MiuiOptimization => 2
    case UnknownSources => 3
    case Administrator => 4
    case Overlay => 5
    case UsageStatistics => 6
    case AccessibilityService => 7
  }

  lemma RankInjective(a: Capability, b: Capability)
    ensures Rank(a) == Rank(b) ==> a == b
  {
  }

  /** The persisted flags the gate reads and writes. */
  datatype Prefs = Prefs(
    deviceOwner: int,
    miuiPermissions: int,
    miuiDeveloper: int,
    miuiOptimization: int,
    unknownSources: int,
    administrator: int,
    overlay: int,
    usageStatistics: int,
    accessibilityService: int)

  function Flag(p: Prefs, c: Capability): int {
    match c
    case MiuiPermissions => p.miuiPermissions
    case MiuiDeveloper => p.miuiDeveloper
    case MiuiOptimization => p.miuiOptimization
    case UnknownSources => p.unknownSources
    case Administrator => p.administrator
    case Overlay => p.overlay
    case UsageStatistics => p.usageStatistics
    case AccessibilityService => p.accessibilityService
  }

  function SetFlag(p: Prefs, c: Capability, v: int): (r: Prefs)
    ensures Flag(r, c) == v
    ensures forall d :: d != c ==> Flag(r, d) == Flag(p, d)
    ensures r.deviceOwner == p.deviceOwner
  {
    match c
    case MiuiPermissions => p.(miuiPermissions := v)
    case MiuiDeveloper => p.(miuiDeveloper := v)
    case MiuiOptimization => p.(miuiOptimization := v)
    case UnknownSources => p.(unknownSources := v)
    case Administrator => p.(administrator := v)
    case Overlay => p.(overlay := v)
    case UsageStatistics => p.(usageStatistics := v)
    case AccessibilityService => p.(accessibilityService := v)
  }

  predicate Resolved(p: Prefs, c: Capability) {
    Flag(p, c) != Unresolved
  }

  /** What the platform answers during one pass. */
  datatype Platform = Platform(
    deviceOwner: bool,
    /** MIUI on Android 9 or later: the MIUI settings screens must be shown. */
    miuiScreens: bool,
    canInstallPackages: bool,
    adminMode: bool,
    canDrawOverlays: bool,
    usageStatistics: bool,
    accessibilityService: bool)

  /** The platform needs no prompt for `c`. */
  predicate Satisfied(env: Platform, c: Capability) {
    match c
    case MiuiPermissions => !env.miuiScreens
    case MiuiDeveloper => !env.miuiScreens
    case MiuiOptimization => !env.miuiScreens
    case UnknownSources => env.canInstallPackages
    case Administrator => env.adminMode
    case Overlay => env.canDrawOverlays
    case UsageStatistics => env.usageStatistics
    case AccessibilityService => env.accessibilityService
  }

  /** A pass ends either with one prompt on screen or by starting the launcher. */
  datatype Outcome = Prompt(capability: Capability) | Launch

  datatype GatePass = GatePass(prefs: Prefs, outcome: Outcome)

  /**
   * Independent description of where a pass stops: `c` blocks when its flag is
   * unresolved, the platform does not grant it, it is not the unknown-sources
   * check on a device owner, and it is not the accessibility check made moot by
   * usage statistics being granted in the same pass.
   */
  predicate Blocks(p: Prefs, env: Platform, c: Capability) {
    && Flag(p, c) == Unresolved
    && !Satisfied(env, c)
    && (c == UnknownSources ==> !env.deviceOwner)
    && (c == AccessibilityService ==>
          !(Flag(p, UsageStatistics) == Unresolved && env.usageStatistics))
  }

  /** The check a pass visits after `c`. */
  function Next(c: Capability): (n: Capability)
    requires c != AccessibilityService
    ensures Rank(n) == Rank(c) + 1
  {
    match c
    case MiuiPermissions => MiuiDeveloper
    case MiuiDeveloper => MiuiOptimization
    case MiuiOptimization => UnknownSources
    case UnknownSources => Administrator
    case Administrator => Overlay
    case Overlay => UsageStatistics
    case UsageStatistics => AccessibilityService
  }

  /** The pass reaches `c` with flags `p` and stops there with a prompt. */
  predicate StopsAt(p: Prefs, env: Platform, c: Capability) {
    && Flag(p, c) == Unresolved
    && !Satisfied(env, c)
    && (c == UnknownSources ==> !env.deviceOwner)
  }

  /** The flags when the pass stops at `c`: a MIUI screen is marked ON before it is shown. */
  function PromptPrefs(p: Prefs, c: Capability): (r: Prefs)
    ensures forall d :: d != c ==> Flag(r, d) == Flag(p, d)
    ensures Flag(r, c) == if IsMiui(c) then On else Flag(p, c)
    ensures r.deviceOwner == p.deviceOwner
  {
    if IsMiui(c) then SetFlag(p, c, On) else p
  }

  /**
   * The flags when the pass goes past `c`: an unresolved check that passes is
   * stored ON; granting usage statistics also stores the accessibility flag OFF.
   * Unknown sources is skipped entirely on a device owner.
   */
  function Settle(p: Prefs, env: Platform, c: Capability): (r: Prefs)
    ensures forall d :: d != c && d != AccessibilityService ==> Flag(r, d) == Flag(p, d)
    ensures c != UsageStatistics ==> Flag(r, AccessibilityService) == Flag(p, AccessibilityService) || c == AccessibilityService
    ensures Resolved(r, c) || (c == UnknownSources && env.deviceOwner)
    ensures Resolved(p, c) ==> Flag(r, c) == Flag(p, c)
    ensures Resolved(p, AccessibilityService) ==> Resolved(r, AccessibilityService)
    // a check that was unresolved is stored ON; granting usage statistics stores accessibility OFF
    ensures Flag(p, c) == Unresolved && !(c == UnknownSources && env.deviceOwner) ==> Flag(r, c) == On
    ensures c == UsageStatistics && Flag(p, c) == Unresolved ==> Flag(r, AccessibilityService) == Off
    ensures r.deviceOwner == p.deviceOwner
  {
    if Flag(p, c) != Unresolved || (c == UnknownSources && env.deviceOwner) then p
    else if c == UsageStatistics then p.(usageStatistics := On, accessibilityService := Off)
    else SetFlag(p, c, On)
  }

  /** The pass went past check `d` without stopping there. */
  predicate WentPast(o: Outcome, d: Capability) {
    o.Launch? || Rank(d) < Rank(o.capability)
  }

  /** Usage statistics is still unresolved and lies ahead of a pass resumed at `c`. */
  predicate UsageAhead(p: Prefs, c: Capability) {
    Rank(c) <= Rank(UsageStatistics) && Flag(p, UsageStatistics) == Unresolved
  }

  /**
   * The value a pass stores for a check it went past: ON for one that was
   * unresolved, except the unknown-sources check on a device owner (left
   * alone) and the accessibility check when usage statistics was granted on
   * the way (stored OFF instead).
   */
  predicate StoresGrant(p: Prefs, env: Platform, c: Capability, r: GatePass, d: Capability) {
    && Rank(d) >= Rank(c) && WentPast(r.outcome, d) && Flag(p, d) == Unresolved
    && !(d == UnknownSources && env.deviceOwner)
    && !(d == AccessibilityService && UsageAhead(p, c))
  }

  /** The rest of a pass, from check `c` on. */
  function PassFrom(p: Prefs, env: Platform, c: Capability): (r: GatePass)
    decreases 7 - Rank(c)
    ensures r.outcome.Prompt? ==>
      Rank(r.outcome.capability) >= Rank(c) && Flag(p, r.outcome.capability) == Unresolved
    ensures forall d :: Resolved(p, d) ==> Resolved(r.prefs, d)
    ensures forall d :: d != AccessibilityService && Resolved(p, d) ==> Flag(r.prefs, d) == Flag(p, d)
    ensures forall d :: Rank(d) < Rank(c) ==> Flag(r.prefs, d) == Flag(p, d)
    ensures r.outcome.Prompt? && IsMiui(r.outcome.capability) ==> Flag(r.prefs, r.outcome.capability) == On
    ensures r.outcome.Prompt? && !IsMiui(r.outcome.capability) ==> Flag(r.prefs, r.outcome.capability) == Unresolved
    ensures r.outcome.Prompt? ==>
      forall d :: Rank(c) <= Rank(d) < Rank(r.outcome.capability) ==>
        Resolved(r.prefs, d) || (d == UnknownSources && env.deviceOwner)
    ensures r.outcome.Prompt? ==>
      forall d :: Rank(d) > Rank(r.outcome.capability) ==> Flag(r.prefs, d) == Flag(p, d)
    ensures r.outcome == Launch ==>
      forall d :: Rank(d) >= Rank(c) ==> Resolved(r.prefs, d) || (d == UnknownSources && env.deviceOwner)
    ensures env.deviceOwner ==> r.outcome != Prompt(UnknownSources)
    // what the pass stores for the checks it went past
    ensures forall d :: StoresGrant(p, env, c, r, d) ==> Flag(r.prefs, d) == On
    ensures UsageAhead(p, c) && WentPast(r.outcome, UsageStatistics) ==> Flag(r.prefs, AccessibilityService) == Off
    ensures r.prefs.deviceOwner == p.deviceOwner
  {
    if StopsAt(p, env, c) then GatePass(PromptPrefs(p, c), Prompt(c))
    else
      var q := Settle(p, env, c);
      if c == AccessibilityService then GatePass(q, Launch)
      else PassFrom(q, env, Next(c))
  }

  /**
   * One pass of the gate (MainActivity.checkAndStartLauncher): record whether
   * the device is owner, then run the checks from the first one.
   */
  function CheckAndStartLauncher(prefs: Prefs, env: Platform): (r: GatePass)
    // a resolved flag is never prompted again, and stays resolved
    ensures r.outcome.Prompt? ==> Flag(prefs, r.outcome.capability) == Unresolved
    ensures forall c :: Resolved(prefs, c) ==> Resolved(r.prefs, c)
    // only usage statistics may overwrite an already resolved flag (accessibility)
    ensures forall c :: c != AccessibilityService && Resolved(prefs, c) ==> Flag(r.prefs, c) == Flag(prefs, c)
    // MIUI screens are marked ON before they are shown; other prompts leave the flag unresolved
    ensures r.outcome.Prompt? && IsMiui(r.outcome.capability) ==> Flag(r.prefs, r.outcome.capability) == On
    ensures r.outcome.Prompt? && !IsMiui(r.outcome.capability) ==> Flag(r.prefs, r.outcome.capability) == Unresolved
    // everything before the prompt is settled, everything after it untouched
    ensures r.outcome.Prompt? ==>
      forall d :: Rank(d) < Rank(r.outcome.capability) ==>
        Resolved(r.prefs, d) || (d == UnknownSources && env.deviceOwner)
    ensures r.outcome.Prompt? ==>
      forall d :: Rank(d) > Rank(r.outcome.capability) ==> Flag(r.prefs, d) == Flag(prefs, d)
    // the launcher starts only when every applicable check is settled
    ensures r.outcome == Launch ==>
      forall d :: Resolved(r.prefs, d) || (d == UnknownSources && env.deviceOwner)
    // a device owner is never asked about unknown sources
    ensures env.deviceOwner ==> r.outcome != Prompt(UnknownSources)
    // every check the pass went past that was unresolved is now ON, except accessibility
    // when usage statistics was granted in this pass: that one is OFF
    ensures forall d ::
      (&& WentPast(r.outcome, d) && Flag(prefs, d) == Unresolved
       && !(d == UnknownSources && env.deviceOwner)
       && !(d == AccessibilityService && Flag(prefs, UsageStatistics) == Unresolved))
      ==> Flag(r.prefs, d) == On
    ensures Flag(prefs, UsageStatistics) == Unresolved && WentPast(r.outcome, UsageStatistics) ==>
      Flag(r.prefs, AccessibilityService) == Off
    ensures r.prefs.deviceOwner == (if env.deviceOwner then On else Off)
  {
    var owner := prefs.(deviceOwner := if env.deviceOwner then On else Off);
    OwnerFlagIsSeparate(prefs, owner.deviceOwner, env);
    assert UsageAhead(owner, MiuiPermissions) == (Flag(prefs, UsageStatistics) == Unresolved);
    PassFrom(owner, env, MiuiPermissions)
  }

  /** A pass never turns a flag stored OFF back on or unresolves it. */
  lemma {:induction false} PassFromKeepsOff(p: Prefs, env: Platform, c: Capability, d: Capability)
    requires Flag(p, d) == Off
    decreases 7 - Rank(c)
    ensures Flag(PassFrom(p, env, c).prefs, d) == Off
  {
    if !StopsAt(p, env, c) && c != AccessibilityService {
      PassFromKeepsOff(Settle(p, env, c), env, Next(c), d);
    }
  }

  lemma SettleKeepsLaterBlocks(p: Prefs, env: Platform, c: Capability, d: Capability)
    requires !StopsAt(p, env, c)
    requires Rank(d) > Rank(c)
    ensures Blocks(Settle(p, env, c), env, d) == Blocks(p, env, d)
  {
  }

  lemma OwnerFlagIsSeparate(p: Prefs, v: int, env: Platform)
    ensures forall d :: Flag(p.(deviceOwner := v), d) == Flag(p, d)
    ensures forall d :: Resolved(p.(deviceOwner := v), d) == Resolved(p, d)
    ensures forall d :: Blocks(p.(deviceOwner := v), env, d) == Blocks(p, env, d)
  {
  }

  /** The first capability, from `c` on in gate order, that blocks. */
  function FirstBlocker(p: Prefs, env: Platform, c: Capability): (r: Option<Capability>)
    decreases 7 - Rank(c)
    ensures r.Some? ==>
      && Rank(r.value) >= Rank(c)
      && Blocks(p, env, r.value)
      && forall d :: Rank(c) <= Rank(d) < Rank(r.value) ==> !Blocks(p, env, d)
    ensures r.None? ==> forall d :: Rank(d) >= Rank(c) ==> !Blocks(p, env, d)
  {
    if Blocks(p, env, c) then Some(c)
    else if c == AccessibilityService then
      LastRankIsAccessibility();
      None
    else
      SameRankSame(c);
      FirstBlocker(p, env, Next(c))
  }

  lemma SameRankSame(c: Capability)
    ensures forall d :: Rank(d) == Rank(c) ==> d == c
  {
  }

  lemma LastRankIsAccessibility()
    ensures forall d :: Rank(d) >= 7 ==> d == AccessibilityService
  {
  }

  /** The first blocker only depends on which capabilities block. */
  lemma {:induction false} FirstBlockerAgrees(p: Prefs, q: Prefs, env: Platform, c: Capability)
    requires forall d :: Rank(d) >= Rank(c) ==> Blocks(q, env, d) == Blocks(p, env, d)
    decreases 7 - Rank(c)
    ensures FirstBlocker(q, env, c) == FirstBlocker(p, env, c)
  {
    if !Blocks(p, env, c) && c != AccessibilityService {
      FirstBlockerAgrees(p, q, env, Next(c));
    }
  }

  function OutcomeOf(first: Option<Capability>): Outcome {
    if first.Some? then Prompt(first.value) else Launch
  }

  /** From any check on, a pass prompts the first blocker and launches when there is none. */
  lemma {:induction false} PassFromFollowsFirstBlocker(p: Prefs, env: Platform, c: Capability)
    requires c == AccessibilityService ==> Resolved(p, UsageStatistics)
    decreases 7 - Rank(c)
    ensures PassFrom(p, env, c).outcome == OutcomeOf(FirstBlocker(p, env, c))
  {
    if StopsAt(p, env, c) {
      assert Blocks(p, env, c);
    } else if c != AccessibilityService {
      var q := Settle(p, env, c);
      var n := Next(c);
      assert PassFrom(p, env, c) == PassFrom(q, env, n);
      assert FirstBlocker(p, env, c) == FirstBlocker(p, env, n);
      forall d | Rank(d) >= Rank(n)
        ensures Blocks(q, env, d) == Blocks(p, env, d)
      {
        SettleKeepsLaterBlocks(p, env, c, d);
      }
      FirstBlockerAgrees(p, q, env, n);
      PassFromFollowsFirstBlocker(q, env, n);
    }
  }

  /** A pass prompts exactly the first capability, in gate order, that blocks. */
  lemma GateStopsAtFirstBlocker(p: Prefs, env: Platform, c: Capability)
    ensures CheckAndStartLauncher(p, env).outcome == Prompt(c) <==>
      Blocks(p, env, c) && forall d :: Rank(d) < Rank(c) ==> !Blocks(p, env, d)
  {
    var owner := p.(deviceOwner := if env.deviceOwner then On else Off);
    OwnerFlagIsSeparate(p, if env.deviceOwner then On else Off, env);
    PassFromFollowsFirstBlocker(owner, env, MiuiPermissions);
    var first := FirstBlocker(owner, env, MiuiPermissions);
    if first.Some? {
      RankInjective(first.value, c);
    }
  }

  /** A pass starts the launcher exactly when no capability blocks. */
  lemma GateLaunchesIffNothingBlocks(p: Prefs, env: Platform)
    ensures CheckAndStartLauncher(p, env).outcome == Launch <==> forall d :: !Blocks(p, env, d)
  {
    var owner := p.(deviceOwner := if env.deviceOwner then On else Off);
    OwnerFlagIsSeparate(p, if env.deviceOwner then On else Off, env);
    PassFromFollowsFirstBlocker(owner, env, MiuiPermissions);
  }

  lemma {:induction false} SettledPassFromIsIdle(p: Prefs, env: Platform, c: Capability)
    requires forall d :: Rank(d) >= Rank(c) ==> Resolved(p, d) || (d == UnknownSources && env.deviceOwner)
    decreases 7 - Rank(c)
    ensures PassFrom(p, env, c) == GatePass(p, Launch)
  {
    assert Settle(p, env, c) == p;
    if c != AccessibilityService {
      SettledPassFromIsIdle(p, env, Next(c));
    }
  }

  /** Once every applicable flag is settled, a pass only refreshes the device-owner flag. */
  lemma SettledGateIsFixedPoint(p: Prefs, env: Platform)
    requires forall d :: Resolved(p, d) || (d == UnknownSources && env.deviceOwner)
    ensures CheckAndStartLauncher(p, env) ==
      GatePass(p.(deviceOwner := if env.deviceOwner then On else Off), Launch)
  {
    OwnerFlagIsSeparate(p, if env.deviceOwner then On else Off, env);
    SettledPassFromIsIdle(p.(deviceOwner := if env.deviceOwner then On else Off), env, MiuiPermissions);
  }

  /** The four "continue without" buttons of the gate's dialogs. */
  datatype Decline =
    | SkipAccessibilityService
    | SkipAdminMode
    | HistoryWithoutPermission
    | OverlayWithoutPermission

  function Declined(d: Decline): Capability {
    match d
    case SkipAccessibilityService => AccessibilityService
    case SkipAdminMode => Administrator
    case HistoryWithoutPermission => UsageStatistics
    case OverlayWithoutPermission => Overlay
  }

  /** The preference write a decline handler makes before re-entering the gate. */
  function DeclinePrefs(p: Prefs, d: Decline): (r: Prefs)
    ensures Flag(r, Declined(d)) == Off
    ensures forall c :: c != Declined(d) ==> Flag(r, c) == Flag(p, c)
    ensures r.deviceOwner == p.deviceOwner
  {
    SetFlag(p, Declined(d), Off)
  }

  /** A decline handler: store OFF for its own flag, then run the gate from the top. */
  function OnDecline(p: Prefs, d: Decline, env: Platform): (r: GatePass)
    ensures Flag(r.prefs, Declined(d)) == Off
    ensures r.outcome != Prompt(Declined(d))
  {
    var declined := DeclinePrefs(p, d);
    var owner := declined.(deviceOwner := if env.deviceOwner then On else Off);
    OwnerFlagIsSeparate(declined, owner.deviceOwner, env);
    PassFromKeepsOff(owner, env, MiuiPermissions, Declined(d));
    CheckAndStartLauncher(declined, env)
  }

  /** What re-enters the gate: a resume of the activity, or a decline button. */
  datatype GateEvent = Resume(env: Platform) | UserDeclined(decline: Decline, env: Platform)

  function Step(p: Prefs, e: GateEvent): (r: GatePass)
    // no event unresolves a flag, and only an unresolved flag is prompted
    ensures forall c :: Resolved(p, c) ==> Resolved(r.prefs, c)
    ensures r.outcome.Prompt? ==> Flag(p, r.outcome.capability) == Unresolved
    ensures e.UserDeclined? ==> Flag(r.prefs, Declined(e.decline)) == Off
  {
    match e
    case Resume(env) => CheckAndStartLauncher(p, env)
    case UserDeclined(d, env) => OnDecline(p, d, env)
  }

  datatype History = History(prefs: Prefs, outcomes: seq<Outcome>)

  /** The flags after a series of gate events, with the outcome of every pass. */
  function Replay(p: Prefs, events: seq<GateEvent>): (h: History)
    decreases |events|
    ensures |h.outcomes| == |events|
  {
    if |events| == 0 then History(p, [])
    else
      var s := Step(p, events[0]);
      var rest := Replay(s.prefs, events[1..]);
      History(rest.prefs, [s.outcome] + rest.outcomes)
  }

  lemma StepKeepsResolved(p: Prefs, e: GateEvent, c: Capability)
    requires Resolved(p, c)
    ensures Resolved(Step(p, e).prefs, c)
    ensures Step(p, e).outcome != Prompt(c)
  {
    match e
    case Resume(env) =>
    case UserDeclined(d, env) =>
      assert Resolved(DeclinePrefs(p, d), c);
  }

  /** A resolved capability is never prompted again, whatever happens next. */
  lemma {:induction false} ResolvedNeverPrompted(p: Prefs, events: seq<GateEvent>, c: Capability)
    requires Resolved(p, c)
    decreases |events|
    ensures Prompt(c) !in Replay(p, events).outcomes
    ensures Resolved(Replay(p, events).prefs, c)
  {
    if |events| > 0 {
      StepKeepsResolved(p, events[0], c);
      ResolvedNeverPrompted(Step(p, events[0]).prefs, events[1..], c);
    }
  }

  /** Each MIUI settings screen is shown at most once over any history. */
  lemma {:induction false} MiuiScreenShownAtMostOnce(p: Prefs, events: seq<GateEvent>, c: Capability)
    requires IsMiui(c)
    decreases |events|
    ensures Count(Replay(p, events).outcomes, Prompt(c)) <= 1
  {
    if |events| > 0 {
      var s := Step(p, events[0]);
      var rest := Replay(s.prefs, events[1..]);
      assert Replay(p, events).outcomes == [s.outcome] + rest.outcomes;
      assert ([s.outcome] + rest.outcomes)[1..] == rest.outcomes;
      if s.outcome == Prompt(c) {
        assert Resolved(s.prefs, c) by {
          match events[0]
          case Resume(env) =>
          case UserDeclined(d, env) =>
        }
        ResolvedNeverPrompted(s.prefs, events[1..], c);
      } else {
        MiuiScreenShownAtMostOnce(s.prefs, events[1..], c);
      }
    }
  }

  /** After a decline, the declined capability is never prompted again. */
  lemma DeclineIsFinal(p: Prefs, d: Decline, env: Platform, later: seq<GateEvent>)
    ensures Prompt(Declined(d)) !in Replay(p, [UserDeclined(d, env)] + later).outcomes
  {
    var s := OnDecline(p, d, env);
    assert ([UserDeclined(d, env)] + later)[1..] == later;
    ResolvedNeverPrompted(s.prefs, later, Declined(d));
  }
}
