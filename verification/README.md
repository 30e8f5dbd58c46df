# Headwind MDM launcher: the control logic of MainActivity

This project is a Dafny model of the control logic inside the launcher's
`MainActivity` in Headwind MDM. That activity holds four small state machines,
each wrapped in Android plumbing:

- **Capability gate** (`gate.dfy`, module `CapabilityGate`). `checkAndStartLauncher` walks a fixed
  checklist over persisted integer flags, in this order: three MIUI settings screens, unknown sources,
  device admin, overlay, usage statistics and accessibility. Each flag is -1 while unresolved, ON or OFF.
  The first unresolved check the platform does not grant opens its prompt and ends the pass. The
  "skip / continue without permission" buttons store OFF for their own flag and re-enter the gate.
- **Configuration fetch guard** (`fetch.dfy`, module `ConfigFetch`). `startLauncher` decides
  whether a fetch is needed. `updateConfig` refuses to start a fetch while `configInitializing` is set.
  The result of the fetch is classified three ways.
- **Server migration** (`migration.dfy`, module `Migration`). `checkServerMigration` switches
  endpoints only after a successful probe of a non-blank, well-formed target.
- **Escalation chain** (`escalation.dfy`, module `Escalation`). The chain runs
  `setupPushService → checkFactoryReset → checkRemoteReboot → checkPasswordReset →
  setDefaultLauncher → updateLocationService → checkAndUpdateFiles`. Each step's own effects are a
  segment of a chain-ordered list of effects. Each step always hands over to the next one.
- **Work queues** (`queues.dfy`, module `WorkQueues`). `filesForInstall` and `applicationsForInstall`
  are consumed from the front. A failed item goes back to the front. "Repeat" retries it; "skip" drops it
  and its record. Kiosk mode skips automatically. The file queue drains before the application list
  is generated. The installer's broadcast and every resume of the activity go through
  `checkAndStartLauncher` to `startLauncher`, which restarts the application queue whenever it holds
  anything. The trace therefore keeps every task started and not yet finished.
- **Auto-run and content** (`autorun.dfy`, module `AutoRun`). `showContent` reports the device state
  once after a reconfiguration and enqueues the periodic report once. `scheduleInstalledAppsRun` turns
  the run list into launches delayed by 5, 10, 15, … seconds.

The model is functional. Persisted flags, static fields and queues are immutable datatypes.
Every platform query and asynchronous result is a parameter:

- device owner, overlay permission, admin mode;
- the result of a server task;
- the outcome of a download;
- the list `InstallUtils` generates.

Broadcasts and button clicks are events replayed over traces. `common.dfy` holds `Option`, the
three task results (`TASK_SUCCESS`, `TASK_ERROR`, `TASK_NETWORK_ERROR`) and an occurrence count.

Four facts about the code's ordering shape the model:

- The escalation chain runs right after the fetch and the migration check, and before the queues.
- Reset and reboot are confirmed to the server first and attempted only afterwards, on
  `TASK_SUCCESS` and with admin mode.
- The reset confirmation carries the admin state at the time it is sent (line 1257). It is not the
  outcome of the reset.
- In kiosk mode a failed file is not skipped, although the comment on the branch (line 1444) says the
  error is ignored and the file kept at its old version (see Findings).

`Const.java` is not part of this model. `PREFERENCES_ON` = 1 and `PREFERENCES_OFF` = 0 are assumed.
The proofs only use that both differ from -1 and from each other.

## Model

| member | source | states |
|---|---|---|
| CapabilityGate.CheckAndStartLauncher | app/src/main/java/com/hmdm/launcher/ui/MainActivity.java:625-748 | One pass. A prompt is only ever for a flag that was unresolved. Resolved flags stay resolved and keep their value, except accessibility, which usage statistics may set OFF. Every unresolved check the pass goes past is stored ON, except unknown sources on a device owner, which is left alone. When usage statistics is granted in the pass, accessibility is stored OFF instead. A MIUI screen is marked ON before it is shown; other prompts leave their flag unresolved. Every check before the prompt is settled and every later flag is untouched. The launcher starts only when all applicable checks are settled. A device owner is never asked about unknown sources. The device-owner flag is recorded. |
| CapabilityGate.PassFrom | app/src/main/java/com/hmdm/launcher/ui/MainActivity.java:634-747 | The rest of a pass from a given check on, with the same guarantees restricted to the checks from there on. Every unresolved check it goes past is stored ON, and accessibility OFF when usage statistics is granted on the way. Earlier flags are untouched. |
| CapabilityGate.Settle | app/src/main/java/com/hmdm/launcher/ui/MainActivity.java:670-737 | Going past an unresolved check stores ON for it, except unknown sources on a device owner, which stays as it is. Granting usage statistics also stores accessibility OFF, and touches no other flag. A resolved flag keeps its value. |
| CapabilityGate.PromptPrefs | app/src/main/java/com/hmdm/launcher/ui/MainActivity.java:634-668 | Stopping at a MIUI check stores ON for it before the dialog. Stopping elsewhere writes nothing. |
| CapabilityGate.FirstBlocker | app/src/main/java/com/hmdm/launcher/ui/MainActivity.java:634-737 | A reference definition of where a pass must stop. The result, if any, blocks, and nothing between the starting check and it blocks. With no result, nothing from the starting check on blocks. Blocks is defined independently of the pass. |
| CapabilityGate.PassFromFollowsFirstBlocker | app/src/main/java/com/hmdm/launcher/ui/MainActivity.java:634-747 | From any check on, the pass prompts the first blocker and launches when there is none, even though it rewrites flags along the way. |
| CapabilityGate.GateStopsAtFirstBlocker | app/src/main/java/com/hmdm/launcher/ui/MainActivity.java:625-737 | A whole pass prompts c if and only if c blocks and nothing earlier in gate order blocks. |
| CapabilityGate.GateLaunchesIffNothingBlocks | app/src/main/java/com/hmdm/launcher/ui/MainActivity.java:625-748 | startLauncher is reached if and only if no capability blocks. |
| CapabilityGate.SettledGateIsFixedPoint | app/src/main/java/com/hmdm/launcher/ui/MainActivity.java:626-747 | Once every applicable flag is resolved, a pass launches and changes nothing but the device-owner flag. |
| CapabilityGate.DeclinePrefs | app/src/main/java/com/hmdm/launcher/ui/MainActivity.java:2188-2198 | A decline handler stores OFF for exactly its own flag and for nothing else. |
| CapabilityGate.OnDecline | app/src/main/java/com/hmdm/launcher/ui/MainActivity.java:790-801 | After a decline, the gate re-entered from the top never prompts the declined capability again. |
| CapabilityGate.PassFromKeepsOff | app/src/main/java/com/hmdm/launcher/ui/MainActivity.java:634-747 | A pass never changes a flag stored OFF, so a declined capability stays declined. |
| CapabilityGate.Step | app/src/main/java/com/hmdm/launcher/ui/MainActivity.java:443-467 | A resume (onResume runs the gate) or a decline handler never unresolves a flag. A prompt is only for a flag that was unresolved before the event. A decline leaves its own flag OFF. |
| CapabilityGate.StepKeepsResolved | app/src/main/java/com/hmdm/launcher/ui/MainActivity.java:634-737 | Neither a resume nor a decline unresolves a flag or prompts a resolved one. |
| CapabilityGate.ResolvedNeverPrompted | app/src/main/java/com/hmdm/launcher/ui/MainActivity.java:634-737 | Over any sequence of resumes and declines, a resolved capability is never prompted and stays resolved. |
| CapabilityGate.MiuiScreenShownAtMostOnce | app/src/main/java/com/hmdm/launcher/ui/MainActivity.java:634-668 | Over any history, each MIUI screen is prompted at most once. |
| CapabilityGate.DeclineIsFinal | app/src/main/java/com/hmdm/launcher/ui/MainActivity.java:2302-2310 | After "continue without" (overlay, usage history, admin or accessibility), that prompt never returns in any later history. |
| ConfigFetch.UpdateConfig | app/src/main/java/com/hmdm/launcher/ui/MainActivity.java:1105-1116 | The call is dropped with no change while configInitializing is set. Otherwise it starts exactly one fetch and sets configInitializing and the send-device-info and redraw flags. |
| ConfigFetch.Classify | app/src/main/java/com/hmdm/launcher/ui/MainActivity.java:1129-1151 | The flow proceeds if and only if the result is success, or a network error with a cached configuration and no forced dialog. A TASK_ERROR means asking for the device id. Otherwise the network error dialog is shown, offering reset only on a first manual setup. |
| ConfigFetch.OnConfigFetched | app/src/main/java/com/hmdm/launcher/ui/MainActivity.java:1124-1153 | The result releases the guard and retires one running fetch, then classifies the result. |
| ConfigFetch.CachedNetworkErrorActsAsSuccess | app/src/main/java/com/hmdm/launcher/ui/MainActivity.java:1141-1144 | With a cached configuration and no forced dialog, a network error continues exactly like a success. |
| ConfigFetch.StepAsWritten | app/src/main/java/com/hmdm/launcher/ui/MainActivity.java:1492-1497 | As written, checkAndUpdateApplications clears configInitializing whatever fetch is in flight. The migration callback (line 1189) clears it and starts another fetch. |
| ConfigFetch.Step | app/src/main/java/com/hmdm/launcher/ui/MainActivity.java:1105-1127 | With the guard released only by the result handler (line 1126), only a completion clears it, retiring one fetch. No event starts a fetch while the guard is set. |
| ConfigFetch.StartLauncher | app/src/main/java/com/hmdm/launcher/ui/MainActivity.java:855-882 | The dispatch, each case an if-and-only-if. Pending installs resume first. Next come the permission request, the server-URL dialog and the device-id dialog, in that order. A ready device that never finished initialisation asks for the configuration, showing the cached one first when there is one. updateConfig's guard drops that request exactly while a fetch is initialising, and otherwise starts one fetch. An initialised device shows its content when no fetch is initialising, and waits otherwise. Only a fetch it starts changes the state. |
| ConfigFetch.StartLauncherTwiceStartsOneFetch | app/src/main/java/com/hmdm/launcher/ui/MainActivity.java:855-882 | A second startLauncher, from another resume or broadcast, leaves the state as the first one left it. It starts at most one fetch in all. After a refresh, the second call's request is dropped by the guard. |
| ConfigFetch.StepKeepsExclusive | app/src/main/java/com/hmdm/launcher/ui/MainActivity.java:1105-1126 | When only the result clears the guard, each event keeps at most one fetch in flight and the guard set exactly while one is. |
| ConfigFetch.FetchesNeverOverlap | app/src/main/java/com/hmdm/launcher/ui/MainActivity.java:1105-1126 | The same holds over any sequence of requests, completions, migrations and application phases. |
| ConfigFetch.AsWrittenFetchesOverlap | app/src/main/java/com/hmdm/launcher/ui/MainActivity.java:1492-1497 | As written, a concrete sequence of five events leaves two fetches in flight. |
| ConfigFetch.RequestBurstStartsOneFetch | app/src/main/java/com/hmdm/launcher/ui/MainActivity.java:1105-1115 | Any burst of updateConfig calls on an idle guard starts exactly one fetch. |
| ConfigFetch.RequestsWhileFetchingAreDropped | app/src/main/java/com/hmdm/launcher/ui/MainActivity.java:1106-1109 | While a fetch is being initialised, any number of further requests change nothing. |
| Migration.TrimStart | app/src/main/java/com/hmdm/launcher/ui/MainActivity.java:1175 | Leading trim: the result is a suffix of the input and does not start with a code point up to U+0020; every dropped character is one. |
| Migration.TrimEnd | app/src/main/java/com/hmdm/launcher/ui/MainActivity.java:1175 | Trailing trim: the result is a prefix of the input and does not end with a code point up to U+0020; every dropped character is one. |
| Migration.Trim | app/src/main/java/com/hmdm/launcher/ui/MainActivity.java:1175 | java.lang.String.trim: the result is a contiguous piece of the target, and every character cut off before or after it is a code point up to U+0020. When non-empty, the result neither starts nor ends with such a character. |
| Migration.BlankIffAllTrimmed | app/src/main/java/com/hmdm/launcher/ui/MainActivity.java:1174-1175 | A target trims to "" if and only if every character in it is a code point up to U+0020. |
| Migration.CheckServerMigration | app/src/main/java/com/hmdm/launcher/ui/MainActivity.java:1173-1207 | The device migrates if and only if the target is present and not blank, parses, differs from the current server, and the probe succeeds. Then the probed server becomes both endpoints and the project. Every other path keeps the endpoints. |
| Migration.BlankTargetNeverMigrates | app/src/main/java/com/hmdm/launcher/ui/MainActivity.java:1174-1175 | A target made only of code points up to U+0020 keeps the endpoints. |
| Migration.FailedProbeKeepsEndpoints | app/src/main/java/com/hmdm/launcher/ui/MainActivity.java:1193-1197 | A failed probe keeps the endpoints, whatever the target. |
| Escalation.PushStep | app/src/main/java/com/hmdm/launcher/ui/MainActivity.java:1209-1230 | The broker is contacted if and only if there is a stored configuration, its push options ask for MQTT, and the stored base URL parses. A URL that does not parse throws before the connect, and the handler goes on without one. |
| Escalation.ResetStep | app/src/main/java/com/hmdm/launcher/ui/MainActivity.java:1232-1262 | A requested reset is always confirmed, and the confirmation comes first. A wipe is attempted if and only if it was requested, the server answered TASK_SUCCESS and admin mode holds. |
| Escalation.RebootStep | app/src/main/java/com/hmdm/launcher/ui/MainActivity.java:1264-1291 | A requested reboot is always confirmed, and the confirmation comes first. A reboot is attempted if and only if it was requested, confirmed with TASK_SUCCESS and admin mode holds. |
| Escalation.PasswordStep | app/src/main/java/com/hmdm/launcher/ui/MainActivity.java:1293-1316 | A requested password is changed before the confirmation is sent, and the confirmation is sent whatever the change returned. Without a request from the server nothing happens: no change and no confirmation. |
| Escalation.LauncherStep | app/src/main/java/com/hmdm/launcher/ui/MainActivity.java:1318-1327 | On a device owner whose configuration does not ask for the default launcher, this app becomes the default launcher unless it already is. |
| Escalation.UpdateLocationService | app/src/main/java/com/hmdm/launcher/ui/MainActivity.java:1329-1332 | Starts the location service, then ends by updating the files. |
| Escalation.SetDefaultLauncher | app/src/main/java/com/hmdm/launcher/ui/MainActivity.java:1318-1327 | Its effects and the rest of the chain are in chain order and end with the file update. |
| Escalation.CheckPasswordReset | app/src/main/java/com/hmdm/launcher/ui/MainActivity.java:1293-1316 | Its effects and the rest of the chain are in chain order and end with the file update. |
| Escalation.CheckRemoteReboot | app/src/main/java/com/hmdm/launcher/ui/MainActivity.java:1264-1291 | Its effects and the rest of the chain are in chain order and end with the file update. |
| Escalation.CheckFactoryReset | app/src/main/java/com/hmdm/launcher/ui/MainActivity.java:1232-1262 | Its effects and the rest of the chain are in chain order and end with the file update. |
| Escalation.SetupPushService | app/src/main/java/com/hmdm/launcher/ui/MainActivity.java:1209-1230 | The whole chain's effects are in chain order, each kind at most once, and end with the file update. |
| Escalation.ChainMembership | app/src/main/java/com/hmdm/launcher/ui/MainActivity.java:1209-1332 | An effect occurs in the whole chain if and only if the step in charge of it performs it. Every step hands over to the next one. |
| Escalation.ChainAlwaysReachesFiles | app/src/main/java/com/hmdm/launcher/ui/MainActivity.java:1209-1332 | Whatever the servers and the platform answer, the chain ends by updating the files, exactly once. |
| Escalation.ResetOnlyWhenConfirmedWithAdmin | app/src/main/java/com/hmdm/launcher/ui/MainActivity.java:1236-1252 | Over the whole chain, the device is wiped if and only if a requested reset was confirmed with TASK_SUCCESS and admin mode holds. |
| Escalation.RebootOnlyWhenConfirmedWithAdmin | app/src/main/java/com/hmdm/launcher/ui/MainActivity.java:1271-1282 | Over the whole chain, the device reboots if and only if a requested reboot was confirmed with TASK_SUCCESS and admin mode holds. |
| Escalation.RequestsAreConfirmed | app/src/main/java/com/hmdm/launcher/ui/MainActivity.java:1232-1316 | Each request (reset, reboot, password) is confirmed to the server if and only if the configuration carries it, whatever the platform allows. |
| Escalation.PasswordChangesOnlyOnRequest | app/src/main/java/com/hmdm/launcher/ui/MainActivity.java:1295-1297 | Over the whole chain, a password change happens only when the configuration carries a reset request, only to the requested password, and reports what the platform returned. |
| Escalation.PushConnectsOnlyWithParsedUrl | app/src/main/java/com/hmdm/launcher/ui/MainActivity.java:1209-1226 | Over the whole chain, the broker is contacted if and only if there is a stored configuration asking for MQTT push and the base URL parses. |
| Escalation.ResetWithoutAdminStillAdvances | app/src/main/java/com/hmdm/launcher/ui/MainActivity.java:1241-1251 | A reset requested without admin mode is confirmed, not performed, and the reboot check follows directly. |
| Escalation.OrderedCountsOnce | app/src/main/java/com/hmdm/launcher/ui/MainActivity.java:1209-1332 | In a chain-ordered list of effects, any effect that occurs occurs exactly once. |
| WorkQueues.LoadAndInstallFiles | app/src/main/java/com/hmdm/launcher/ui/MainActivity.java:1357-1459 | The head of the file queue is taken and stays pending. The application list is replaced, and applications processed or content shown, only once the file queue is empty. |
| WorkQueues.LoadAndInstallApplications | app/src/main/java/com/hmdm/launcher/ui/MainActivity.java:1508-1610 | The head of the application queue is taken and stays pending. Content is shown if and only if the queue is empty. Nothing else changes. |
| WorkQueues.RepeatDownload | app/src/main/java/com/hmdm/launcher/ui/MainActivity.java:2229-2236 | The queue the dialog refers to is restarted with all its items still pending, and nothing is dropped. |
| WorkQueues.ConfirmDownloadFailure | app/src/main/java/com/hmdm/launcher/ui/MainActivity.java:2238-2254 | Exactly the head of the queue the dialog refers to is dropped and logged, and the rest continues in order. Skipping an application leaves the file queue untouched. Skipping the last file replaces the application list with the generated one and processes it. |
| WorkQueues.OnFileDone | app/src/main/java/com/hmdm/launcher/ui/MainActivity.java:1434-1452 | Removals, files without URL and successful downloads go on to the next file. An interactive failure puts the file back in front and opens the dialog. In kiosk mode the corrected handler drops the file and takes the next one, while the as-written one drops the head of the application queue instead. |
| WorkQueues.OnAppDone | app/src/main/java/com/hmdm/launcher/ui/MainActivity.java:1515-1605 | An installed application flagged run-after-install is appended to the run list, and nothing else is. An install or uninstall waits for the installer's broadcast. A null URL faults. An interactive failure puts the application back in front with the dialog. In kiosk mode exactly that application is dropped: always when corrected, and as written whenever downloadingFile is unset. |
| WorkQueues.StartIsOrderly | app/src/main/java/com/hmdm/launcher/ui/MainActivity.java:1357-1459 | Starting the file queue establishes the queue discipline. |
| WorkQueues.FileDoneKeepsOrder | app/src/main/java/com/hmdm/launcher/ui/MainActivity.java:1434-1452 | A file completion keeps the queue discipline. |
| WorkQueues.AppDoneKeepsOrder | app/src/main/java/com/hmdm/launcher/ui/MainActivity.java:1585-1605 | An application completion keeps the queue discipline. |
| WorkQueues.SkipKeepsOrder | app/src/main/java/com/hmdm/launcher/ui/MainActivity.java:2238-2254 | Skip, from the dialog or after it was closed, keeps the queue discipline. |
| WorkQueues.RepeatKeepsOrder | app/src/main/java/com/hmdm/launcher/ui/MainActivity.java:2229-2236 | Repeat, or a retry after the dialog was closed, keeps the queue discipline. |
| WorkQueues.InstallDoneKeepsOrder | app/src/main/java/com/hmdm/launcher/ui/MainActivity.java:1513-1516 | Continuing with the next application after an install keeps the queue discipline. |
| WorkQueues.RelaunchKeepsOrder | app/src/main/java/com/hmdm/launcher/ui/MainActivity.java:855-859 | The corrected startLauncher keeps one task at a time and the queue discipline. |
| WorkQueues.Relaunch | app/src/main/java/com/hmdm/launcher/ui/MainActivity.java:855-859 | The queue part of startLauncher. As written, the head of a non-empty application queue is started behind whatever task runs; with an empty queue the content is shown and nothing starts. Corrected, nothing changes while a task runs, and the activity moves only from waiting for the installer (the next application is taken) or from a closed failure dialog (the failed item is retried first). Then the one task it starts is the only one running. |
| WorkQueues.Step | app/src/main/java/com/hmdm/launcher/ui/MainActivity.java:399-435 | One event: a task report, the installer broadcast (any status), a resume, or a dialog click. Tasks finish only by reporting, one per report, in the order they were started. An event that is not a report finishes none. Corrected, a broadcast or a resume starts no task while one runs. |
| WorkQueues.StartIsSound | app/src/main/java/com/hmdm/launcher/ui/MainActivity.java:1340-1354 | checkAndUpdateFiles starts one task and the queue discipline holds. |
| WorkQueues.StepKeepsOrder | app/src/main/java/com/hmdm/launcher/ui/MainActivity.java:1357-1610 | Corrected, any event keeps one task at a time and the queue discipline. Pending files are a tail of the original queue, and while any is pending the activity works on files. Afterwards pending applications are a tail of the generated list. Events include install broadcasts and resumes in any state. |
| WorkQueues.QueuesStayOrderly | app/src/main/java/com/hmdm/launcher/ui/MainActivity.java:1357-1610 | For the corrected handlers and restart rule, over any trace of outcomes, broadcasts, resumes and clicks: at most one task runs, and both queues keep their original order. An application is processed, or content shown, only once no file is pending. |
| WorkQueues.RepeatRetriesSameFile | app/src/main/java/com/hmdm/launcher/ui/MainActivity.java:1437 | After a failed file, "repeat" retries that same file before any other. |
| WorkQueues.RepeatRetriesSameApp | app/src/main/java/com/hmdm/launcher/ui/MainActivity.java:1593 | After a failed application, "repeat" retries that same application before any other. |
| WorkQueues.SkipDropsFailedFile | app/src/main/java/com/hmdm/launcher/ui/MainActivity.java:2241-2246 | After a failed file, "skip" drops exactly that file and its record and continues with the rest in order. |
| WorkQueues.SkipDropsFailedApp | app/src/main/java/com/hmdm/launcher/ui/MainActivity.java:2248-2252 | After a failed application, "skip" drops exactly that application and its record and continues with the rest in order. |
| WorkQueues.KioskFileFailureAsWritten | app/src/main/java/com/hmdm/launcher/ui/MainActivity.java:1443-1447 | As written, a kiosk-mode file failure shows the content with the failed file and the next one both still queued, and breaks the queue discipline. |
| WorkQueues.KioskFileFailureCorrected | app/src/main/java/com/hmdm/launcher/ui/MainActivity.java:1436-1449 | Corrected, the same failure drops the failed file and starts the next one. |
| WorkQueues.DoubleRelaunchAsWritten | app/src/main/java/com/hmdm/launcher/ui/MainActivity.java:855-859 | As written, three applications: the first installs, then the installer broadcast and a resume both reach startLauncher. Two download tasks are started, one waiting behind the other, and the discipline is lost. |
| WorkQueues.DoubleRelaunchCorrected | app/src/main/java/com/hmdm/launcher/ui/MainActivity.java:855-859 | Corrected, the same events leave only the second download running, with the third still queued. |
| WorkQueues.ResumeAfterFileFailureAsWritten | app/src/main/java/com/hmdm/launcher/ui/MainActivity.java:2157 | As written, a file fails, onPause closes its dialog and the resume finds no application. The content is shown, nothing runs, and the failed file is neither retried nor dropped. |
| WorkQueues.ResumeAfterFileFailureCorrected | app/src/main/java/com/hmdm/launcher/ui/MainActivity.java:2157 | Corrected, the resume retries the failed file. |
| AutoRun.ScheduleInstalledAppsRun | app/src/main/java/com/hmdm/launcher/ui/MainActivity.java:2071-2091 | The run list is drained completely into exactly the launches Schedule describes, so consecutive launches are 5 s apart. An empty list schedules nothing. |
| AutoRun.Schedule | app/src/main/java/com/hmdm/launcher/ui/MainActivity.java:2077-2089 | The launches of a run list keep its order. The i-th one (0-based) waits 5·(i+1) s. |
| AutoRun.ShowContent | app/src/main/java/com/hmdm/launcher/ui/MainActivity.java:1837-1846 | The post-reconfiguration report goes out if and only if it is pending, and the flag is consumed. The periodic report is enqueued if and only if not yet scheduled. Every waiting application is launched in order, and the run list is left empty. |
| AutoRun.ShowContentTwiceIsQuiet | app/src/main/java/com/hmdm/launcher/ui/MainActivity.java:1844-1846 | A second showContent with nothing new sends no report, schedules nothing and launches nothing. |

## Left out

- User interface: dialogs, overlays, the lock screen, buttons, theming and the application grid. `showContent`'s lock handling is also left out.
- Threading: broadcast receivers, handler posts and the completion of an `AsyncTask` are events applied one at a time on the main thread. The queue trace keeps every task started and not yet finished; tasks finish in the order they were started, as `AsyncTask.execute` runs them one after another.
- Network and storage: server tasks, downloads, file moves, database writes, and installs and uninstalls are boolean or `TaskResult` inputs. `updateRemoteLogConfig` always goes on to the migration check, so it is folded into `Classify`'s Proceed.
- `InstallUtils.generateFilesForInstallList` and `generateApplicationsForInstallList` (the diff against the device) are not part of this model. The generated lists are inputs.
- `MigrationHelper` is not part of this model. Its parsing, its `needMigrating` comparison and its probe are inputs (`MigrationFacts`).
- `SettingsHelper` is not part of this model. The records removed by "skip" are logged in `droppedFiles` / `droppedApps`.
- The MD5 check of the password and `CryptoHelper` are not part of this model.
- `checkSystemSettings`, `startAppsAtBoot`, `startLauncherRestarter`, `checkPermissions` and `createButtons` are left out; they are platform actions. `checkPermissions` survives only as a boolean.
- `DetailedInfoWorker.requestConfigUpdate`, the `lockStatusBar` handling and `autoGrantRequestedPermissions` are left out; they are platform side effects.
- The branch "proceed to next app" for an application without URL cannot be reached. Its `startsWith` test dereferences the null URL first. The model ends that case in `Fault`.
- WorkQueues.Relaunch: whether the capability gate lets a pass through to `startLauncher` is the event's boolean. `interruptResumeFlow` is folded into it.
- WorkQueues.Relaunch: as written, with no application pending, the model takes the content screen. In `startLauncher` that is the branch of an initialised device with no fetch running. The other branches (permissions, server URL, device id, refresh) are `ConfigFetch.StartLauncher`'s and do not touch the queues.
- The static lists outlive an activity; process restarts are not modelled.
- AutoRun.ScheduleInstalledAppsRun: uses unbounded integers, so the 32-bit overflow of `pause * 1000` is not modelled. It would take more than 400,000 queued launches.
- AutoRun.ShowContent: `checkSystemSettings` returns true on every path (line 1834), so the early return at lines 1838-1841 is never taken and is not modelled. The settings dialogs it may post open later, and `showContent` carries on without waiting for them.
- ConfigFetch.StartLauncher: does not state what the `showContent` call for a cached configuration does; `AutoRun.ShowContent` covers it.

## Findings

| source | as written | input that shows it | evidently intended | confidence | as-written member | corrected member |
|---|---|---|---|---|---|---|
| app/src/main/java/com/hmdm/launcher/ui/MainActivity.java:1443-1447 | In kiosk mode, the failed-file branch calls `confirmDownloadFailureClicked` without setting `downloadingFile`. Only the interactive branches set it, and in kiosk mode it keeps its initial false. The automatic skip therefore drops the head of the application queue and proceeds with applications. | Kiosk mode, files `[a.cfg, b.cfg]`, the download of `a.cfg` fails. Content is shown with `a.cfg` and `b.cfg` still queued and `b.cfg` never attempted. A queued application, if any, is dropped without being tried. | The failed file is dropped with its record and the next file is taken, as the comment on the branch says. | high, not executed | WorkQueues.KioskFileFailureAsWritten | WorkQueues.KioskFileFailureCorrected |
| app/src/main/java/com/hmdm/launcher/ui/MainActivity.java:1496-1497 | `configInitializing` is cleared by `checkAndUpdateApplications`, and also by the migration callback at line 1189. Neither belongs to the fetch the flag guards. | A fetch completes and its chain starts. A push broadcast then calls `updateConfig` (line 223), which starts a second fetch. The first chain reaches `checkAndUpdateApplications` and clears the flag. A further request starts a third fetch while the second still runs. | At most one configuration fetch at a time, with the flag released only by the result handler of the fetch it guards. | medium, not executed | ConfigFetch.AsWrittenFetchesOverlap | ConfigFetch.FetchesNeverOverlap |
| app/src/main/java/com/hmdm/launcher/ui/MainActivity.java:855-859 | `startLauncher` calls `loadAndInstallApplications` whenever the application queue is non-empty. It does so whatever task is running, and both the installer broadcast (line 435) and `onResume` (line 466) call it. | Three applications to download. The first installs; its installer broadcast starts the second download, and the resume that follows the installer starts the third while the second still runs. | Continue the application queue only when it waits: after an install, with no task running. | medium, not executed | WorkQueues.DoubleRelaunchAsWritten | WorkQueues.DoubleRelaunchCorrected |
| app/src/main/java/com/hmdm/launcher/ui/MainActivity.java:2157 | `onPause` closes the download-failure dialog. After the resume, `startLauncher` restarts only the application queue. A failed file's dialog is gone, and the file queue is never resumed. | Interactive mode, one file, its download fails, and the activity is paused and resumed before the user answers. Content is shown; the file stays queued, neither retried nor dropped, until the next configuration. | The resume continues the queue the closed dialog referred to, retrying the failed item. | medium, not executed | WorkQueues.ResumeAfterFileFailureAsWritten | WorkQueues.ResumeAfterFileFailureCorrected |
