/**
 * The chain that runs after a configuration has been fetched and the server
 * migration check is done: setupPushService -> checkFactoryReset ->
 * checkRemoteReboot -> checkPasswordReset -> setDefaultLauncher ->
 * updateLocationService -> checkAndUpdateFiles.
 *
 * Every asynchronous completion is replaced by its result, taken from
 * `ChainFacts`, and the chain is described by the side effects it performs,
 * in order. Each step hands over to the next one on every branch.
 */
module Escalation {
  import opened Common

  /** The fields of the stored configuration the chain reads; a Java null is None. */
  datatype EscalationConfig = EscalationConfig(
    factoryReset: Option<bool>,
    reboot: Option<bool>,
    passwordReset: Option<string>,
    runDefaultLauncher: Option<bool>)

  /** What the platform and the server answer while the chain runs. */
  datatype ChainFacts = ChainFacts(
    /**
     * Push is enabled in the build and the stored configuration's push options
     * name an MQTT channel; it only counts when there is a stored configuration.
     */
    mqttPush: bool,
    /** The stored base URL parses as a java.net.URL; when it does not, the connect is skipped. */
    baseUrlParses: bool,
    /** Admin mode when the reset confirmation is built (it is reported to the server). */
    adminWhenReporting: bool,
    resetConfirmation: Option<TaskResult>,
    adminAfterResetConfirmation: bool,
    resetSucceeds: bool,
    rebootConfirmation: Option<TaskResult>,
    adminAfterRebootConfirmation: bool,
    rebootSucceeds: bool,
    passwordChanged: bool,
    deviceOwner: bool,
    isDefaultLauncher: bool)

  /** The externally visible actions of the chain. */
  datatype Effect =
    | ConnectPush
    | ConfirmReset(reportsAdmin: bool)
    | FactoryReset(succeeded: bool)
    | ConfirmReboot
    | Reboot(succeeded: bool)
    | ChangePassword(password: string, succeeded: bool)
    | ConfirmPasswordReset
    | MakeDefaultLauncher
    | StartLocationService
    | UpdateFiles

  /** Position of an effect in the chain. */
  function Rank(e: Effect): nat {
    match e
    case ConnectPush => 0
    case ConfirmReset(_) => 1
    case FactoryReset(_) => 2
    case ConfirmReboot => 3
    case Reboot(_) => 4
    case ChangePassword(_, _) => 5
    case ConfirmPasswordReset => 6
    case MakeDefaultLauncher => 7
    case StartLocationService => 8
    case UpdateFiles => 9
  }

  /** Effects appear in chain order, each kind at most once, none ranked below `from`. */
  predicate InChainOrder(effects: seq<Effect>, from: nat)
    decreases |effects|
  {
    |effects| == 0 || (Rank(effects[0]) >= from && InChainOrder(effects[1..], Rank(effects[0]) + 1))
  }

  predicate Requested(flag: Option<bool>) {
    flag == Some(true)
  }

  predicate ResetAttempted(effects: seq<Effect>) {
    FactoryReset(true) in effects || FactoryReset(false) in effects
  }

  predicate RebootAttempted(effects: seq<Effect>) {
    Reboot(true) in effects || Reboot(false) in effects
  }

  /** Every effect in the list ranks below `bound`. */
  predicate RanksBelow(effects: seq<Effect>, bound: nat) {
    forall i :: 0 <= i < |effects| ==> Rank(effects[i]) < bound
  }

  lemma {:induction false} Weaken(effects: seq<Effect>, from: nat, lower: nat)
    requires InChainOrder(effects, from)
    requires lower <= from
    ensures InChainOrder(effects, lower)
  {
  }

  /** Two ordered stretches, the first ranked entirely below the second, form one ordered list. */
  lemma {:induction false} Concat(a: seq<Effect>, b: seq<Effect>, from: nat, mid: nat)
    requires InChainOrder(a, from) && RanksBelow(a, mid)
    requires InChainOrder(b, mid) && from <= mid
    decreases |a|
    ensures InChainOrder(a + b, from)
  {
    if |a| == 0 {
      assert a + b == b;
      Weaken(b, mid, from);
    } else {
      assert (a + b)[1..] == a[1..] + b;
      Concat(a[1..], b, Rank(a[0]) + 1, mid);
    }
  }

  /** Nothing ranked below the lower bound of an ordered list occurs in it. */
  lemma {:induction false} BelowBoundAbsent(effects: seq<Effect>, from: nat, e: Effect)
    requires InChainOrder(effects, from)
    requires Rank(e) < from
    decreases |effects|
    ensures e !in effects
  {
    if |effects| > 0 {
      BelowBoundAbsent(effects[1..], Rank(effects[0]) + 1, e);
      assert effects == [effects[0]] + effects[1..];
    }
  }

  /** An effect ranked outside a stretch's range does not occur in it. */
  lemma OutOfRangeAbsent(effects: seq<Effect>, lo: nat, hi: nat, e: Effect)
    requires InChainOrder(effects, lo) && RanksBelow(effects, hi)
    requires Rank(e) < lo || hi <= Rank(e)
    ensures e !in effects
  {
    if Rank(e) < lo {
      BelowBoundAbsent(effects, lo, e);
    }
  }

  /**
   * The effects setupPushService performs itself: connecting to the MQTT
   * broker of the base URL's host. A base URL that does not parse throws before
   * the connect, and the handler goes on to the next step without one.
   */
  function PushStep(config: Option<EscalationConfig>, f: ChainFacts): (r: seq<Effect>)
    ensures InChainOrder(r, 0) && RanksBelow(r, 1)
    ensures ConnectPush in r <==> config.Some? && f.mqttPush && f.baseUrlParses
  {
    if config.Some? && f.mqttPush && f.baseUrlParses then [ConnectPush] else []
  }

  /** The effects checkFactoryReset performs itself: confirm on the server, then wipe when allowed. */
  function ResetStep(config: Option<EscalationConfig>, f: ChainFacts): (r: seq<Effect>)
    ensures InChainOrder(r, 1) && RanksBelow(r, 3)
    ensures ConfirmReset(f.adminWhenReporting) in r <==> config.Some? && Requested(config.value.factoryReset)
    // the wipe is attempted only after the server acknowledged it, and only with admin rights
    ensures ResetAttempted(r) <==>
      config.Some? && Requested(config.value.factoryReset)
      && f.resetConfirmation == Some(TaskSuccess) && f.adminAfterResetConfirmation
    ensures |r| > 0 ==> r[0] == ConfirmReset(f.adminWhenReporting)
  {
    if config.Some? && Requested(config.value.factoryReset) then
      if f.resetConfirmation == Some(TaskSuccess) && f.adminAfterResetConfirmation then
        [ConfirmReset(f.adminWhenReporting), FactoryReset(f.resetSucceeds)]
      else [ConfirmReset(f.adminWhenReporting)]
    else []
  }

  /** The effects checkRemoteReboot performs itself: confirm on the server, then reboot when allowed. */
  function RebootStep(config: Option<EscalationConfig>, f: ChainFacts): (r: seq<Effect>)
    ensures InChainOrder(r, 3) && RanksBelow(r, 5)
    ensures ConfirmReboot in r <==> config.Some? && Requested(config.value.reboot)
    ensures RebootAttempted(r) <==>
      config.Some? && Requested(config.value.reboot)
      && f.rebootConfirmation == Some(TaskSuccess) && f.adminAfterRebootConfirmation
    ensures |r| > 0 ==> r[0] == ConfirmReboot
  {
    if config.Some? && Requested(config.value.reboot) then
      if f.rebootConfirmation == Some(TaskSuccess) && f.adminAfterRebootConfirmation then
        [ConfirmReboot, Reboot(f.rebootSucceeds)]
      else [ConfirmReboot]
    else []
  }

  /** The effects checkPasswordReset performs itself: change the password, then confirm whatever the outcome. */
  function PasswordStep(config: Option<EscalationConfig>, f: ChainFacts): (r: seq<Effect>)
    ensures InChainOrder(r, 5) && RanksBelow(r, 7)
    ensures ConfirmPasswordReset in r <==> config.Some? && config.value.passwordReset.Some?
    ensures config.Some? && config.value.passwordReset.Some? ==>
      r == [ChangePassword(config.value.passwordReset.value, f.passwordChanged), ConfirmPasswordReset]
    // without a request from the server the password is left alone
    ensures config.None? || config.value.passwordReset.None? ==> r == []
  {
    if config.Some? && config.value.passwordReset.Some? then
      [ChangePassword(config.value.passwordReset.value, f.passwordChanged), ConfirmPasswordReset]
    else []
  }

  /**
   * The effect setDefaultLauncher performs itself: on a device owner whose
   * configuration does not ask to run the default launcher, make this app the
   * default launcher unless it already is.
   */
  function LauncherStep(config: Option<EscalationConfig>, f: ChainFacts): (r: seq<Effect>)
    ensures InChainOrder(r, 7) && RanksBelow(r, 8)
    ensures MakeDefaultLauncher in r <==>
      f.deviceOwner && config.Some? && !Requested(config.value.runDefaultLauncher) && !f.isDefaultLauncher
  {
    if f.deviceOwner && config.Some? && !Requested(config.value.runDefaultLauncher) && !f.isDefaultLauncher then
      [MakeDefaultLauncher]
    else []
  }

  /** MainActivity.updateLocationService: start the location service, then the file queue. */
  function UpdateLocationService(): (r: seq<Effect>)
    ensures InChainOrder(r, 8) && RanksBelow(r, 10)
    ensures StartLocationService in r
    ensures |r| > 0 && r[|r| - 1] == UpdateFiles
  {
    [StartLocationService, UpdateFiles]
  }

  /** MainActivity.setDefaultLauncher, followed by the rest of the chain. */
  function SetDefaultLauncher(config: Option<EscalationConfig>, f: ChainFacts): (r: seq<Effect>)
    ensures InChainOrder(r, 7)
    ensures |r| > 0 && r[|r| - 1] == UpdateFiles
  {
    var own := LauncherStep(config, f);
    var next := UpdateLocationService();
    Concat(own, next, 7, 8);
    own + next
  }

  /** MainActivity.checkPasswordReset, followed by the rest of the chain. */
  function CheckPasswordReset(config: Option<EscalationConfig>, f: ChainFacts): (r: seq<Effect>)
    ensures InChainOrder(r, 5)
    ensures |r| > 0 && r[|r| - 1] == UpdateFiles
  {
    var own := PasswordStep(config, f);
    var next := SetDefaultLauncher(config, f);
    Concat(own, next, 5, 7);
    own + next
  }

  /** MainActivity.checkRemoteReboot, followed by the rest of the chain. */
  function CheckRemoteReboot(config: Option<EscalationConfig>, f: ChainFacts): (r: seq<Effect>)
    ensures InChainOrder(r, 3)
    ensures |r| > 0 && r[|r| - 1] == UpdateFiles
  {
    var own := RebootStep(config, f);
    var next := CheckPasswordReset(config, f);
    Concat(own, next, 3, 5);
    own + next
  }

  /** MainActivity.checkFactoryReset, followed by the rest of the chain. */
  function CheckFactoryReset(config: Option<EscalationConfig>, f: ChainFacts): (r: seq<Effect>)
    ensures InChainOrder(r, 1)
    ensures |r| > 0 && r[|r| - 1] == UpdateFiles
  {
    var own := ResetStep(config, f);
    var next := CheckRemoteReboot(config, f);
    Concat(own, next, 1, 3);
    own + next
  }

  /** MainActivity.setupPushService: the connect callbacks and a failure all go on to the reset check. */
  function SetupPushService(config: Option<EscalationConfig>, f: ChainFacts): (r: seq<Effect>)
    ensures InChainOrder(r, 0)
    ensures |r| > 0 && r[|r| - 1] == UpdateFiles
  {
    var own := PushStep(config, f);
    var next := CheckFactoryReset(config, f);
    Concat(own, next, 0, 1);
    own + next
  }

  /** The stretch of the chain in charge of effects of the given rank. */
  function StepOf(rank: nat, config: Option<EscalationConfig>, f: ChainFacts): seq<Effect> {
    if rank == 0 then PushStep(config, f)
    else if rank <= 2 then ResetStep(config, f)
    else if rank <= 4 then RebootStep(config, f)
    else if rank <= 6 then PasswordStep(config, f)
    else if rank == 7 then LauncherStep(config, f)
    else UpdateLocationService()
  }

  /** An effect occurs in the whole chain exactly when the step in charge of it performs it. */
  lemma ChainMembership(config: Option<EscalationConfig>, f: ChainFacts, e: Effect)
    ensures e in SetupPushService(config, f) <==> e in StepOf(Rank(e), config, f)
  {
    var push, reset, reboot := PushStep(config, f), ResetStep(config, f), RebootStep(config, f);
    var password, launcher, location := PasswordStep(config, f), LauncherStep(config, f), UpdateLocationService();
    assert SetupPushService(config, f) == push + (reset + (reboot + (password + (launcher + location))));
    var k := Rank(e);
    if k != 0 { OutOfRangeAbsent(push, 0, 1, e); }
    if k != 1 && k != 2 { OutOfRangeAbsent(reset, 1, 3, e); }
    if k != 3 && k != 4 { OutOfRangeAbsent(reboot, 3, 5, e); }
    if k != 5 && k != 6 { OutOfRangeAbsent(password, 5, 7, e); }
    if k != 7 { OutOfRangeAbsent(launcher, 7, 8, e); }
    if k < 8 { OutOfRangeAbsent(location, 8, 10, e); }
  }

  /** Whatever the servers and the platform answer, the chain ends by updating the files, once. */
  lemma ChainAlwaysReachesFiles(config: Option<EscalationConfig>, f: ChainFacts)
    ensures |SetupPushService(config, f)| > 0
    ensures SetupPushService(config, f)[|SetupPushService(config, f)| - 1] == UpdateFiles
    ensures Count(SetupPushService(config, f), UpdateFiles) == 1
  {
    var r := SetupPushService(config, f);
    OrderedCountsOnce(r, 0, UpdateFiles);
  }

  /** In a chain-ordered list an effect occurs at most once. */
  lemma {:induction false} OrderedCountsOnce(effects: seq<Effect>, from: nat, e: Effect)
    requires InChainOrder(effects, from)
    requires e in effects
    decreases |effects|
    ensures Count(effects, e) == 1
  {
    var rest := effects[1..];
    if effects[0] == e {
      BelowBoundAbsent(rest, Rank(e) + 1, e);
    } else {
      assert e in rest;
      OrderedCountsOnce(rest, Rank(effects[0]) + 1, e);
    }
  }

  /** The device is wiped exactly when a requested reset was acknowledged and admin mode holds. */
  lemma ResetOnlyWhenConfirmedWithAdmin(config: Option<EscalationConfig>, f: ChainFacts)
    ensures ResetAttempted(SetupPushService(config, f)) <==>
      config.Some? && Requested(config.value.factoryReset)
      && f.resetConfirmation == Some(TaskSuccess) && f.adminAfterResetConfirmation
  {
    ChainMembership(config, f, FactoryReset(true));
    ChainMembership(config, f, FactoryReset(false));
  }

  /** The device reboots exactly when a requested reboot was acknowledged and admin mode holds. */
  lemma RebootOnlyWhenConfirmedWithAdmin(config: Option<EscalationConfig>, f: ChainFacts)
    ensures RebootAttempted(SetupPushService(config, f)) <==>
      config.Some? && Requested(config.value.reboot)
      && f.rebootConfirmation == Some(TaskSuccess) && f.adminAfterRebootConfirmation
  {
    ChainMembership(config, f, Reboot(true));
    ChainMembership(config, f, Reboot(false));
  }

  /** Every request the configuration carries is confirmed to the server, whatever the platform allows. */
  lemma RequestsAreConfirmed(config: Option<EscalationConfig>, f: ChainFacts)
    ensures ConfirmReset(f.adminWhenReporting) in SetupPushService(config, f) <==>
      config.Some? && Requested(config.value.factoryReset)
    ensures ConfirmReboot in SetupPushService(config, f) <==> config.Some? && Requested(config.value.reboot)
    ensures ConfirmPasswordReset in SetupPushService(config, f) <==>
      config.Some? && config.value.passwordReset.Some?
  {
    ChainMembership(config, f, ConfirmReset(f.adminWhenReporting));
    ChainMembership(config, f, ConfirmReboot);
    ChainMembership(config, f, ConfirmPasswordReset);
  }

  /** The password is changed only to the one the server asked for, and only when it asked. */
  lemma PasswordChangesOnlyOnRequest(config: Option<EscalationConfig>, f: ChainFacts, pw: string, ok: bool)
    ensures ChangePassword(pw, ok) in SetupPushService(config, f) ==>
      config.Some? && config.value.passwordReset == Some(pw) && ok == f.passwordChanged
  {
    ChainMembership(config, f, ChangePassword(pw, ok));
  }

  /** The broker is contacted exactly when MQTT push is configured and the base URL parses. */
  lemma PushConnectsOnlyWithParsedUrl(config: Option<EscalationConfig>, f: ChainFacts)
    ensures ConnectPush in SetupPushService(config, f) <==> config.Some? && f.mqttPush && f.baseUrlParses
  {
    ChainMembership(config, f, ConnectPush);
  }

  /** A reset requested without admin mode is confirmed, not performed, and the reboot check still runs. */
  lemma ResetWithoutAdminStillAdvances(config: EscalationConfig, f: ChainFacts)
    requires Requested(config.factoryReset)
    requires !f.adminAfterResetConfirmation
    ensures CheckFactoryReset(Some(config), f) ==
      [ConfirmReset(f.adminWhenReporting)] + CheckRemoteReboot(Some(config), f)
  {
  }
}
