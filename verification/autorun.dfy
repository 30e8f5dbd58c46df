/**
 * What MainActivity.showContent does once the queues are done: report the
 * device state after a reconfiguration (once), schedule the periodic report
 * (once per activity), and start the freshly installed applications that ask
 * for it, one after another with growing delays.
 */
module AutoRun {
  import opened WorkQueues

  /** PAUSE_BETWEEN_AUTORUNS_SEC. */
  const PauseBetweenAutorunsSec: nat := 5

  /** A launch posted to the main-thread handler. */
  datatype Launch = Launch(pkg: string, delayMs: nat)

  /** The delay of the i-th launch (0-based): five seconds more for each earlier one. */
  function DelayMs(i: nat): nat {
    (i + 1) * PauseBetweenAutorunsSec * 1000
  }

  /**
   * The launches a run list turns into when its first entry is the `from`-th
   * one scheduled: the list's order is kept and each entry waits five seconds
   * longer than the one before it.
   */
  function Schedule(forRun: seq<Application>, from: nat): (launches: seq<Launch>)
    decreases |forRun|
    ensures |launches| == |forRun|
    ensures forall i :: 0 <= i < |launches| ==> launches[i] == Launch(forRun[i].pkg, DelayMs(from + i))
  {
    if |forRun| == 0 then []
    else [Launch(forRun[0].pkg, DelayMs(from))] + Schedule(forRun[1..], from + 1)
  }

  /** MainActivity.scheduleInstalledAppsRun: drain the run list into delayed launches. */
  method ScheduleInstalledAppsRun(forRun: seq<Application>) returns (launches: seq<Launch>, rest: seq<Application>)
    ensures rest == []
    ensures launches == Schedule(forRun, 0)
    // the i-th entry waits 5 * (i + 1) seconds, five seconds after the one before it
    ensures forall i :: 0 < i < |launches| ==> launches[i].delayMs == launches[i - 1].delayMs + PauseBetweenAutorunsSec * 1000
  {
    launches := [];
    rest := forRun;
    if |rest| == 0 {
      return;
    }
    var pause := PauseBetweenAutorunsSec;
    while |rest| > 0
      invariant |launches| + |rest| == |forRun|
      invariant rest == forRun[|launches|..]
      invariant pause == (|launches| + 1) * PauseBetweenAutorunsSec
      invariant forall i :: 0 <= i < |launches| ==> launches[i] == Launch(forRun[i].pkg, DelayMs(i))
    {
      var app := rest[0];
      rest := rest[1..];
      launches := launches + [Launch(app.pkg, pause * 1000)];
      pause := pause + PauseBetweenAutorunsSec;
    }
  }

  /** The part of the activity's state showContent reads and writes. */
  datatype ContentState = ContentState(
    needSendDeviceInfoAfterReconfigure: bool,
    sendDeviceInfoScheduled: bool,
    forRun: seq<Application>)

  /** The effects of one showContent call. */
  datatype ContentEffects = ContentEffects(sendsDeviceInfo: bool, schedulesPeriodicReport: bool, launches: seq<Launch>)

  /** Nothing happens. */
  const NoEffects := ContentEffects(false, false, [])

  datatype Shown = Shown(state: ContentState, effects: ContentEffects)

  /**
   * MainActivity.showContent without its UI. Its early return depends on
   * checkSystemSettings, which returns true on every path (it may post a
   * settings dialog for later), so that return is never taken and is not modelled.
   */
  function ShowContent(s: ContentState): (r: Shown)
    // the report after a reconfiguration goes out once, and the flag is consumed
    ensures r.effects.sendsDeviceInfo == s.needSendDeviceInfoAfterReconfigure
    ensures !r.state.needSendDeviceInfoAfterReconfigure
    // the periodic report is enqueued only by the first call
    ensures r.effects.schedulesPeriodicReport == !s.sendDeviceInfoScheduled && r.state.sendDeviceInfoScheduled
    // every application waiting to run is launched, in order, and the run list is left empty
    ensures r.state.forRun == [] && |r.effects.launches| == |s.forRun|
    ensures forall i :: 0 <= i < |r.effects.launches| ==> r.effects.launches[i] == Launch(s.forRun[i].pkg, DelayMs(i))
  {
    Shown(ContentState(false, true, []),
          ContentEffects(s.needSendDeviceInfoAfterReconfigure, !s.sendDeviceInfoScheduled, Schedule(s.forRun, 0)))
  }

  /**
   * A second showContent with nothing new to do (no reconfiguration, no fresh
   * installs) sends no report, schedules nothing and launches nothing.
   */
  lemma ShowContentTwiceIsQuiet(s: ContentState)
    ensures var first := ShowContent(s);
      ShowContent(first.state) == Shown(first.state, NoEffects)
  {
  }
}
