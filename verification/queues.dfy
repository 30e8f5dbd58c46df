/**
 * The two work queues of MainActivity: `filesForInstall` and
 * `applicationsForInstall`. Each is consumed from the front, one item per
 * asynchronous task; a failed item goes back to the front and waits for the
 * user (or, in kiosk mode, for an automatic skip). The file queue is drained
 * before the application list is generated and processed.
 *
 * Downloads, installs and the records SettingsHelper keeps are outside the
 * model: a download is a boolean outcome, and a record the skip handler
 * removes is appended to `droppedFiles` / `droppedApps`.
 */
module WorkQueues {
  import opened Common

  datatype RemoteFile = RemoteFile(path: string, url: Option<string>, remove: bool)

  datatype Application = Application(
    pkg: string,
    name: string,
    url: Option<string>,
    remove: bool,
    runAfterInstall: bool)

  datatype Queues = Queues(
    files: seq<RemoteFile>,
    apps: seq<Application>,
    /** Installed applications waiting to be started (applicationsForRun). */
    forRun: seq<Application>,
    /** Tells the failure dialog whether a file or an application failed. */
    downloadingFile: bool,
    droppedFiles: seq<RemoteFile>,
    droppedApps: seq<Application>)

  /** Where the activity stands once an operation returns. */
  datatype Next =
    | FileTask(file: RemoteFile)     // a file task is running
    | AppTask(app: Application)      // an application task is running
    | FailureDialog                  // "repeat" or "skip" is awaited
    | AwaitInstall                   // the installer or uninstaller is at work; its broadcast resumes the flow
    | ShowContent                    // the queues are done
    | Fault                          // an application without URL: the source dereferences null
    | Dismissed                      // onPause closed the failure dialog; the queues wait for startLauncher

  datatype Flow = Flow(q: Queues, next: Next)

  /**
   * The failure handling and the restart of the queues as the source writes
   * them, and corrected: the kiosk branches set `downloadingFile`, and
   * startLauncher restarts the queues only where they wait for it.
   */
  datatype Variant = AsWritten | Corrected

  /** The failure dialog is on screen, or was closed when the activity paused. */
  predicate Waiting(n: Next) {
    n == FailureDialog || n == Dismissed
  }

  /** Files still to be handled: the one being processed, then the queue. */
  function FilePending(flow: Flow): seq<RemoteFile> {
    (if flow.next.FileTask? then [flow.next.file] else []) + flow.q.files
  }

  /** Applications still to be handled: the one being processed, then the queue. */
  function AppPending(flow: Flow): seq<Application> {
    (if flow.next.AppTask? then [flow.next.app] else []) + flow.q.apps
  }

  predicate IsSuffix<T(==)>(s: seq<T>, t: seq<T>) {
    |s| <= |t| && t[|t| - |s|..] == s
  }

  lemma SuffixOfTail<T>(s: seq<T>, t: seq<T>)
    requires IsSuffix(s, t) && |s| > 0
    ensures IsSuffix(s[1..], t)
  {
    assert t[|t| - |s[1..]|..] == t[|t| - |s|..][1..];
  }

  /** `r` is where the activity stands right after it (re)starts the file queue `files`. */
  predicate EntersFiles(r: Flow, files: seq<RemoteFile>, generated: seq<Application>) {
    && (files != [] ==> r.next.FileTask? && FilePending(r) == files)
    && (files == [] ==> FilePending(r) == [] && EntersApps(r, generated))
  }

  /** `r` is where the activity stands right after it (re)starts the application queue `apps`. */
  predicate EntersApps(r: Flow, apps: seq<Application>) {
    AppPending(r) == apps && (r.next.AppTask? || r.next == ShowContent)
  }

  /** MainActivity.loadAndInstallApplications: take the head, or show the content when none is left. */
  function LoadAndInstallApplications(q: Queues): (r: Flow)
    ensures EntersApps(r, q.apps)
    ensures r.next == ShowContent <==> q.apps == []
    ensures r.q.files == q.files && r.q.forRun == q.forRun && r.q.downloadingFile == q.downloadingFile
    ensures r.q.droppedFiles == q.droppedFiles && r.q.droppedApps == q.droppedApps
  {
    if |q.apps| > 0 then Flow(q.(apps := q.apps[1..]), AppTask(q.apps[0]))
    else Flow(q, ShowContent)
  }

  /**
   * MainActivity.loadAndInstallFiles: take the head of the file queue, or, once
   * it is empty, generate the application list (checkAndUpdateApplications)
   * and process it. `generated` is the list InstallUtils produces.
   */
  function LoadAndInstallFiles(q: Queues, generated: seq<Application>): (r: Flow)
    ensures EntersFiles(r, q.files, generated)
    // the application list is replaced only once no file is left
    ensures r.q.apps != q.apps ==> q.files == []
    ensures r.next.AppTask? || r.next == ShowContent ==> q.files == []
    ensures r.q.forRun == q.forRun && r.q.downloadingFile == q.downloadingFile
    ensures r.q.droppedFiles == q.droppedFiles && r.q.droppedApps == q.droppedApps
  {
    if |q.files| > 0 then Flow(q.(files := q.files[1..]), FileTask(q.files[0]))
    else LoadAndInstallApplications(q.(apps := generated))
  }

  /** MainActivity.repeatDownloadClicked: restart whichever queue failed. */
  function RepeatDownload(q: Queues, generated: seq<Application>): (r: Flow)
    ensures q.downloadingFile ==> EntersFiles(r, q.files, generated)
    ensures !q.downloadingFile ==> EntersApps(r, q.apps) && r.q.files == q.files
    ensures r.q.forRun == q.forRun && r.q.downloadingFile == q.downloadingFile
    ensures r.q.droppedFiles == q.droppedFiles && r.q.droppedApps == q.droppedApps
  {
    if q.downloadingFile then LoadAndInstallFiles(q, generated)
    else LoadAndInstallApplications(q)
  }

  /** MainActivity.confirmDownloadFailureClicked: drop the head of the failed queue and its record, then go on. */
  function ConfirmDownloadFailure(q: Queues, generated: seq<Application>): (r: Flow)
    ensures q.downloadingFile && q.files != [] ==>
      && EntersFiles(r, q.files[1..], generated)
      && r.q.droppedFiles == q.droppedFiles + [q.files[0]]
      && r.q.droppedApps == q.droppedApps
    ensures q.downloadingFile && q.files == [] ==>
      EntersFiles(r, [], generated) && r.q.droppedFiles == q.droppedFiles && r.q.droppedApps == q.droppedApps
    ensures !q.downloadingFile && q.apps != [] ==>
      && EntersApps(r, q.apps[1..])
      && r.q.droppedApps == q.droppedApps + [q.apps[0]]
      && r.q.droppedFiles == q.droppedFiles
    ensures !q.downloadingFile && q.apps == [] ==>
      EntersApps(r, []) && r.q.droppedFiles == q.droppedFiles && r.q.droppedApps == q.droppedApps
    ensures !q.downloadingFile ==> r.q.files == q.files
    ensures r.q.forRun == q.forRun && r.q.downloadingFile == q.downloadingFile
  {
    if q.downloadingFile then
      if |q.files| > 0 then
        LoadAndInstallFiles(q.(files := q.files[1..], droppedFiles := q.droppedFiles + [q.files[0]]), generated)
      else LoadAndInstallFiles(q, generated)
    else
      if |q.apps| > 0 then
        LoadAndInstallApplications(q.(apps := q.apps[1..], droppedApps := q.droppedApps + [q.apps[0]]))
      else LoadAndInstallApplications(q)
  }

  /** A file task reports a failure: a file to fetch whose download or move did not succeed. */
  predicate FileFailed(f: RemoteFile, downloaded: bool) {
    !f.remove && f.url.Some? && !downloaded
  }

  /** The completion of a file task (onPostExecute in loadAndInstallFiles). */
  function OnFileDone(v: Variant, q: Queues, f: RemoteFile, downloaded: bool, kiosk: bool,
                      generated: seq<Application>): (r: Flow)
    // removals, files without URL and successful downloads go on to the next file
    ensures !FileFailed(f, downloaded) ==>
      EntersFiles(r, q.files, generated) && r.q.droppedFiles == q.droppedFiles && r.q.droppedApps == q.droppedApps
    // a failure puts the file back in front and asks the user
    ensures FileFailed(f, downloaded) && !kiosk ==>
      && r == Flow(r.q, FailureDialog) && r.q.downloadingFile
      && r.q.files == [f] + q.files && r.q.apps == q.apps
      && r.q.droppedFiles == q.droppedFiles && r.q.droppedApps == q.droppedApps
    // in kiosk mode the failed file is skipped and the next one taken
    ensures v == Corrected && FileFailed(f, downloaded) && kiosk ==>
      && EntersFiles(r, q.files, generated)
      && r.q.droppedFiles == q.droppedFiles + [f] && r.q.droppedApps == q.droppedApps
    // as written, the automatic skip reads a stale flag and drops the head of the application queue instead
    ensures v == AsWritten && FileFailed(f, downloaded) && kiosk && !q.downloadingFile ==>
      && r.q.files == [f] + q.files && r.q.droppedFiles == q.droppedFiles
      && (q.apps != [] ==> r.q.droppedApps == q.droppedApps + [q.apps[0]])
    ensures r.q.forRun == q.forRun
  {
    if !FileFailed(f, downloaded) then LoadAndInstallFiles(q, generated)
    else
      var back := q.(files := [f] + q.files);
      if !kiosk then Flow(back.(downloadingFile := true), FailureDialog)
      else if v == Corrected then ConfirmDownloadFailure(back.(downloadingFile := true), generated)
      else ConfirmDownloadFailure(back, generated)
  }

  /** A Google Play link, installed by the store rather than downloaded. */
  predicate IsMarketUrl(url: string) {
    "market://details" <= url
  }

  /** An application task that ends with the application handed to the installer. */
  predicate AppInstalled(a: Application, downloaded: bool) {
    !a.remove && a.url.Some? && (IsMarketUrl(a.url.value) || downloaded)
  }

  /** An application task that reports a failed download. */
  predicate AppFailed(a: Application, downloaded: bool) {
    !a.remove && a.url.Some? && !IsMarketUrl(a.url.value) && !downloaded
  }

  /** The completion of an application task (doInBackground and onPostExecute in loadAndInstallApplications). */
  function OnAppDone(v: Variant, q: Queues, a: Application, downloaded: bool, kiosk: bool,
                     generated: seq<Application>): (r: Flow)
    // an installed application flagged run-after-install joins the run list, at its end
    ensures r.q.forRun == q.forRun + (if AppInstalled(a, downloaded) && a.runAfterInstall then [a] else [])
    // an install or uninstall resumes through the installer's broadcast, not from here
    ensures AppInstalled(a, downloaded) || a.remove ==>
      && r.next == AwaitInstall && r.q.files == q.files && r.q.apps == q.apps
      && r.q.droppedFiles == q.droppedFiles && r.q.droppedApps == q.droppedApps
    ensures !a.remove && a.url.None? ==> r == Flow(q, Fault)
    ensures AppFailed(a, downloaded) && !kiosk ==>
      && r.next == FailureDialog && !r.q.downloadingFile
      && r.q.apps == [a] + q.apps && r.q.files == q.files
      && r.q.droppedFiles == q.droppedFiles && r.q.droppedApps == q.droppedApps
    // in kiosk mode the failed application is skipped and the next one taken; as written this
    // relies on `downloadingFile` being unset, which it is unless a file failed before
    ensures (v == Corrected || !q.downloadingFile) && AppFailed(a, downloaded) && kiosk ==>
      && EntersApps(r, q.apps) && r.q.files == q.files
      && r.q.droppedApps == q.droppedApps + [a] && r.q.droppedFiles == q.droppedFiles
  {
    if a.remove then Flow(q, AwaitInstall)
    else match a.url
      case None => Flow(q, Fault)
      case Some(url) =>
        if IsMarketUrl(url) || downloaded then
          Flow(q.(forRun := q.forRun + (if a.runAfterInstall then [a] else [])), AwaitInstall)
        else
          var back := q.(apps := [a] + q.apps);
          if !kiosk then Flow(back.(downloadingFile := false), FailureDialog)
          else if v == Corrected then ConfirmDownloadFailure(back.(downloadingFile := false), generated)
          else ConfirmDownloadFailure(back, generated)
  }

  /**
   * The queue discipline: the files still pending are a tail of the original
   * file queue; while any is pending the activity is busy with files; once none
   * is, the applications still pending are a tail of the generated list. The
   * failure dialog always refers to a non-empty queue.
   */
  predicate Orderly(flow: Flow, files0: seq<RemoteFile>, generated: seq<Application>) {
    && IsSuffix(FilePending(flow), files0)
    && (FilePending(flow) != [] ==> flow.next.FileTask? || (Waiting(flow.next) && flow.q.downloadingFile))
    && (FilePending(flow) == [] ==>
          && IsSuffix(AppPending(flow), generated)
          && !(Waiting(flow.next) && flow.q.downloadingFile))
    && (Waiting(flow.next) && !flow.q.downloadingFile ==> flow.q.apps != [])
  }

  lemma StartIsOrderly(q: Queues, generated: seq<Application>)
    ensures Orderly(LoadAndInstallFiles(q, generated), q.files, generated)
  {
    var r := LoadAndInstallFiles(q, generated);
    assert q.files[|q.files| - |q.files|..] == q.files;
    assert generated[|generated| - |generated|..] == generated;
  }

  lemma {:induction false} FileDoneKeepsOrder(q: Queues, f: RemoteFile, downloaded: bool, kiosk: bool,
                                              files0: seq<RemoteFile>, generated: seq<Application>)
    requires Orderly(Flow(q, FileTask(f)), files0, generated)
    ensures Orderly(OnFileDone(Corrected, q, f, downloaded, kiosk, generated), files0, generated)
  {
    var pending := [f] + q.files;
    assert FilePending(Flow(q, FileTask(f))) == pending;
    assert pending[1..] == q.files;
    SuffixOfTail(pending, files0);
    assert generated[|generated| - |generated|..] == generated;
    var r := OnFileDone(Corrected, q, f, downloaded, kiosk, generated);
    if !FileFailed(f, downloaded) || kiosk {
      // the next file is taken, or the application list is generated
      assert EntersFiles(r, q.files, generated);
    } else {
      // the file goes back in front, behind the dialog
      assert r.next == FailureDialog && r.q.downloadingFile;
      assert FilePending(r) == pending;
    }
  }

  lemma {:induction false} AppDoneKeepsOrder(q: Queues, a: Application, downloaded: bool, kiosk: bool,
                                             files0: seq<RemoteFile>, generated: seq<Application>)
    requires Orderly(Flow(q, AppTask(a)), files0, generated)
    ensures Orderly(OnAppDone(Corrected, q, a, downloaded, kiosk, generated), files0, generated)
  {
    var before := Flow(q, AppTask(a));
    var r := OnAppDone(Corrected, q, a, downloaded, kiosk, generated);
    assert FilePending(before) == q.files;
    assert q.files == [];
    var pending := [a] + q.apps;
    assert AppPending(before) == pending;
    assert pending[1..] == q.apps;
    SuffixOfTail(pending, generated);
    if AppFailed(a, downloaded) && !kiosk {
      assert AppPending(r) == pending;
    } else if AppFailed(a, downloaded) {
      assert EntersApps(r, q.apps);
    } else {
      assert r.q.apps == q.apps && r.q.files == q.files;
      assert AppPending(r) == q.apps;
    }
  }

  /** "Skip" keeps the discipline. */
  lemma {:induction false} SkipKeepsOrder(q: Queues, n: Next, files0: seq<RemoteFile>, generated: seq<Application>)
    requires Waiting(n)
    requires Orderly(Flow(q, n), files0, generated)
    ensures Orderly(ConfirmDownloadFailure(q, generated), files0, generated)
  {
    assert FilePending(Flow(q, n)) == q.files;
    assert generated[|generated| - |generated|..] == generated;
    if q.downloadingFile {
      SuffixOfTail(q.files, files0);
    } else {
      assert q.files == [];
      SuffixOfTail(q.apps, generated);
    }
  }

  /** "Repeat", or a retry after the dialog was closed, keeps the discipline. */
  lemma {:induction false} RepeatKeepsOrder(q: Queues, n: Next, files0: seq<RemoteFile>, generated: seq<Application>)
    requires Waiting(n)
    requires Orderly(Flow(q, n), files0, generated)
    ensures Orderly(RepeatDownload(q, generated), files0, generated)
  {
    assert FilePending(Flow(q, n)) == q.files;
    assert generated[|generated| - |generated|..] == generated;
    if !q.downloadingFile {
      assert q.files == [];
    }
  }

  /** The install broadcast that continues with the next application keeps the discipline. */
  lemma InstallDoneKeepsOrder(q: Queues, files0: seq<RemoteFile>, generated: seq<Application>)
    requires Orderly(Flow(q, AwaitInstall), files0, generated)
    ensures Orderly(LoadAndInstallApplications(q), files0, generated)
  {
    assert FilePending(Flow(q, AwaitInstall)) == q.files;
  }

  /** A task started and not finished yet. */
  datatype Job = FileJob(file: RemoteFile) | AppJob(app: Application)

  /** The task an operation left running, if any. */
  function Started(n: Next): seq<Job> {
    match n
    case FileTask(f) => [FileJob(f)]
    case AppTask(a) => [AppJob(a)]
    case _ => []
  }

  /**
   * The activity as events reach it: the queues, the tasks started and not
   * yet finished, and where the last operation left it. AsyncTask.execute runs
   * tasks one after another, so they finish in the order they were started.
   */
  datatype Activity = Activity(q: Queues, running: seq<Job>, screen: Next)

  /** Carry on from an operation's result while the tasks in `running` are still at work. */
  function Continue(running: seq<Job>, r: Flow): Activity {
    Activity(r.q, running + Started(r.next), r.next)
  }

  /** checkAndUpdateFiles hands the generated file queue to loadAndInstallFiles. */
  function Start(q: Queues, generated: seq<Application>): Activity {
    Continue([], LoadAndInstallFiles(q, generated))
  }

  /** The completion handler of a finished task. */
  function Finish(v: Variant, q: Queues, job: Job, downloaded: bool, kiosk: bool, generated: seq<Application>): Flow {
    match job
    case FileJob(f) => OnFileDone(v, q, f, downloaded, kiosk, generated)
    case AppJob(a) => OnAppDone(v, q, a, downloaded, kiosk, generated)
  }

  /**
   * What startLauncher does to the queues. As written it restarts the
   * application queue whenever it holds anything, whatever is running or
   * waiting, and otherwise shows the content. Corrected, it continues only a
   * queue that waits for it: after an install, or by retrying the item whose
   * failure dialog was closed.
   */
  function Relaunch(v: Variant, act: Activity, generated: seq<Application>): (r: Activity)
    // as written: the head of the application queue is started behind whatever runs
    ensures v == AsWritten ==> r.q.files == act.q.files && EntersApps(Flow(r.q, r.screen), act.q.apps)
    ensures v == AsWritten && act.q.apps != [] ==> r.running == act.running + [AppJob(act.q.apps[0])]
    ensures v == AsWritten && act.q.apps == [] ==> r.running == act.running && r.screen == ShowContent
    // corrected: only a queue waiting after an install or a closed dialog moves on, and nothing runs then
    ensures v == Corrected && act.running != [] ==> r == act
    ensures v == Corrected && r != act ==>
      act.running == [] && (act.screen == AwaitInstall || act.screen == Dismissed)
    ensures v == Corrected && act.running == [] && act.screen == AwaitInstall ==>
      r.running == Started(r.screen) && r.q.files == act.q.files && EntersApps(Flow(r.q, r.screen), act.q.apps)
    // the item whose dialog was closed is retried first
    ensures v == Corrected && act.running == [] && act.screen == Dismissed ==>
      && r.running == Started(r.screen)
      && (act.q.downloadingFile ==> EntersFiles(Flow(r.q, r.screen), act.q.files, generated))
      && (!act.q.downloadingFile ==> r.q.files == act.q.files && EntersApps(Flow(r.q, r.screen), act.q.apps))
  {
    match v
    case AsWritten => Continue(act.running, LoadAndInstallApplications(act.q))
    case Corrected =>
      if act.running != [] then act
      else if act.screen == AwaitInstall then Continue([], LoadAndInstallApplications(act.q))
      else if act.screen == Dismissed then Continue([], RepeatDownload(act.q, generated))
      else act
  }

  /** What reaches the queues from the outside while they are processed. */
  datatype QueueEvent =
    | TaskDone(downloaded: bool)     // the earliest running task reports its download outcome
    | InstallComplete(passes: bool)  // installer broadcast, whatever its status; `passes`: the capability gate reaches startLauncher
    | Resume(passes: bool)           // onPause closed the failure dialog, then onResume runs the capability gate
    | RepeatClicked
    | SkipClicked

  function Step(v: Variant, act: Activity, e: QueueEvent, kiosk: bool, generated: seq<Application>): (r: Activity)
    // tasks finish only by reporting, one per report, in the order they were started
    ensures !e.TaskDone? ==> act.running <= r.running
    ensures e.TaskDone? && act.running != [] ==> act.running[1..] <= r.running
    ensures e.TaskDone? && act.running == [] ==> r == act
    // corrected, a broadcast or a resume starts no task while one runs
    ensures v == Corrected && act.running != [] && (e.InstallComplete? || e.Resume?) ==> r.running == act.running
  {
    match e
    case TaskDone(downloaded) =>
      if act.running == [] then act
      else Continue(act.running[1..], Finish(v, act.q, act.running[0], downloaded, kiosk, generated))
    case InstallComplete(passes) =>
      if passes then Relaunch(v, act, generated) else act
    case Resume(passes) =>
      var closed := if act.screen == FailureDialog then act.(screen := Dismissed) else act;
      if passes then Relaunch(v, closed, generated) else closed
    case RepeatClicked =>
      if act.screen == FailureDialog then Continue(act.running, RepeatDownload(act.q, generated)) else act
    case SkipClicked =>
      if act.screen == FailureDialog then Continue(act.running, ConfirmDownloadFailure(act.q, generated)) else act
  }

  function Run(v: Variant, act: Activity, events: seq<QueueEvent>, kiosk: bool, generated: seq<Application>): Activity
    decreases |events|
  {
    if |events| == 0 then act else Run(v, Step(v, act, events[0], kiosk, generated), events[1..], kiosk, generated)
  }

  /** The only task running is the one the last operation started; none runs otherwise. */
  predicate OneAtATime(act: Activity) {
    act.running == Started(act.screen)
  }

  /** One task at a time, and the queue discipline. */
  predicate Sound(act: Activity, files0: seq<RemoteFile>, generated: seq<Application>) {
    OneAtATime(act) && Orderly(Flow(act.q, act.screen), files0, generated)
  }

  lemma StartIsSound(q: Queues, generated: seq<Application>)
    ensures Sound(Start(q, generated), q.files, generated)
  {
    StartIsOrderly(q, generated);
  }

  /** The corrected startLauncher keeps one task at a time and the queue discipline. */
  lemma RelaunchKeepsOrder(act: Activity, files0: seq<RemoteFile>, generated: seq<Application>)
    requires Sound(act, files0, generated)
    ensures Sound(Relaunch(Corrected, act, generated), files0, generated)
  {
    if act.running == [] {
      if act.screen == AwaitInstall {
        InstallDoneKeepsOrder(act.q, files0, generated);
      } else if act.screen == Dismissed {
        RepeatKeepsOrder(act.q, Dismissed, files0, generated);
      }
    }
  }

  lemma StepKeepsOrder(act: Activity, e: QueueEvent, kiosk: bool, files0: seq<RemoteFile>, generated: seq<Application>)
    requires Sound(act, files0, generated)
    ensures Sound(Step(Corrected, act, e, kiosk, generated), files0, generated)
  {
    var q := act.q;
    match e
    case TaskDone(downloaded) =>
      if act.running != [] {
        match act.screen {
          case FileTask(f) => FileDoneKeepsOrder(q, f, downloaded, kiosk, files0, generated);
          case AppTask(a) => AppDoneKeepsOrder(q, a, downloaded, kiosk, files0, generated);
        }
      }
    case InstallComplete(passes) =>
      if passes {
        RelaunchKeepsOrder(act, files0, generated);
      }
    case Resume(passes) =>
      var closed := if act.screen == FailureDialog then act.(screen := Dismissed) else act;
      assert Sound(closed, files0, generated);
      if passes {
        RelaunchKeepsOrder(closed, files0, generated);
      }
    case RepeatClicked =>
      if act.screen == FailureDialog {
        RepeatKeepsOrder(q, FailureDialog, files0, generated);
      }
    case SkipClicked =>
      if act.screen == FailureDialog {
        SkipKeepsOrder(q, FailureDialog, files0, generated);
      }
  }

  /**
   * Whatever the outcomes, broadcasts, resumes and clicks, the corrected
   * activity runs one task at a time, keeps both queues in their original
   * order and never shows the content while a file is pending.
   */
  lemma {:induction false} QueuesStayOrderly(act: Activity, events: seq<QueueEvent>, kiosk: bool,
                                             files0: seq<RemoteFile>, generated: seq<Application>)
    requires Sound(act, files0, generated)
    decreases |events|
    ensures Sound(Run(Corrected, act, events, kiosk, generated), files0, generated)
    ensures |Run(Corrected, act, events, kiosk, generated).running| <= 1
    ensures var r := Run(Corrected, act, events, kiosk, generated);
      r.screen.AppTask? || r.screen == ShowContent ==> FilePending(Flow(r.q, r.screen)) == []
  {
    if |events| > 0 {
      StepKeepsOrder(act, events[0], kiosk, files0, generated);
      QueuesStayOrderly(Step(Corrected, act, events[0], kiosk, generated), events[1..], kiosk, files0, generated);
    }
  }

  /** "Repeat" after a failed file retries that same file before any other. */
  lemma RepeatRetriesSameFile(v: Variant, q: Queues, f: RemoteFile, downloaded: bool, generated: seq<Application>)
    requires FileFailed(f, downloaded)
    ensures OnFileDone(v, q, f, downloaded, false, generated).next == FailureDialog
    ensures RepeatDownload(OnFileDone(v, q, f, downloaded, false, generated).q, generated)
         == Flow(OnFileDone(v, q, f, downloaded, false, generated).q.(files := q.files), FileTask(f))
  {
  }

  /** "Repeat" after a failed application retries that same application before any other. */
  lemma RepeatRetriesSameApp(v: Variant, q: Queues, a: Application, downloaded: bool, generated: seq<Application>)
    requires AppFailed(a, downloaded)
    ensures OnAppDone(v, q, a, downloaded, false, generated).next == FailureDialog
    ensures RepeatDownload(OnAppDone(v, q, a, downloaded, false, generated).q, generated)
         == Flow(OnAppDone(v, q, a, downloaded, false, generated).q.(apps := q.apps), AppTask(a))
  {
  }

  /** "Skip" after a failed file drops exactly that file and continues with the rest, in order. */
  lemma SkipDropsFailedFile(v: Variant, q: Queues, f: RemoteFile, downloaded: bool, generated: seq<Application>)
    requires FileFailed(f, downloaded)
    ensures var r := ConfirmDownloadFailure(OnFileDone(v, q, f, downloaded, false, generated).q, generated);
      && EntersFiles(r, q.files, generated)
      && r.q.droppedFiles == q.droppedFiles + [f]
      && r.q.droppedApps == q.droppedApps
  {
  }

  /** "Skip" after a failed application drops exactly that application and continues with the rest, in order. */
  lemma SkipDropsFailedApp(v: Variant, q: Queues, a: Application, downloaded: bool, generated: seq<Application>)
    requires AppFailed(a, downloaded)
    ensures var r := ConfirmDownloadFailure(OnAppDone(v, q, a, downloaded, false, generated).q, generated);
      && EntersApps(r, q.apps)
      && r.q.files == q.files
      && r.q.droppedApps == q.droppedApps + [a]
      && r.q.droppedFiles == q.droppedFiles
  {
  }

  /**
   * As written, a kiosk-mode file failure with `downloadingFile` unset skips in
   * the wrong queue: the failed file stays in front, the next file is never
   * taken, and the content is shown with both files still pending.
   */
  lemma KioskFileFailureAsWritten()
    ensures var f1 := RemoteFile("a.cfg", Some("http://server/a.cfg"), false);
      var f2 := RemoteFile("b.cfg", Some("http://server/b.cfg"), false);
      var q0 := Queues([f1, f2], [], [], false, [], []);
      var r := Run(AsWritten, Start(q0, []), [TaskDone(false)], true, []);
      && r.screen == ShowContent
      && r.q.files == [f1, f2]
      && r.q.droppedFiles == []
      && !Sound(r, q0.files, [])
  {
  }

  /** Corrected, the same failure skips the failed file and takes the next one. */
  lemma KioskFileFailureCorrected()
    ensures var f1 := RemoteFile("a.cfg", Some("http://server/a.cfg"), false);
      var f2 := RemoteFile("b.cfg", Some("http://server/b.cfg"), false);
      var q0 := Queues([f1, f2], [], [], false, [], []);
      var r := Run(Corrected, Start(q0, []), [TaskDone(false)], true, []);
      && r.screen == FileTask(f2)
      && r.running == [FileJob(f2)]
      && r.q.files == []
      && r.q.droppedFiles == [f1]
  {
  }

  /** Three applications to download; the first installs, then the installer's broadcast and a resume both arrive. */
  function InstallThenResume(): seq<QueueEvent> {
    [TaskDone(true), InstallComplete(true), Resume(true)]
  }

  function ThreeApps(): seq<Application> {
    [Application("a", "A", Some("http://server/a.apk"), false, false),
     Application("b", "B", Some("http://server/b.apk"), false, false),
     Application("c", "C", Some("http://server/c.apk"), false, false)]
  }

  /**
   * As written, the broadcast restarts the application queue and the resume
   * restarts it again while the second download still runs: two downloads are
   * in flight, and the discipline is lost.
   */
  lemma DoubleRelaunchAsWritten()
    ensures var apps := ThreeApps();
      var r := Run(AsWritten, Start(Queues([], [], [], false, [], []), apps), InstallThenResume(), false, apps);
      && r.running == [AppJob(apps[1]), AppJob(apps[2])]
      && !Sound(r, [], apps)
  {
    var apps := ThreeApps();
    var events := InstallThenResume();
    var a0 := Start(Queues([], [], [], false, [], []), apps);
    assert a0.running == [AppJob(apps[0])] && a0.q.apps == apps[1..];
    // the first application installs and waits for the broadcast
    var a1 := Step(AsWritten, a0, events[0], false, apps);
    assert a1.running == [] && a1.q.apps == apps[1..];
    // the broadcast starts the second download
    var a2 := Step(AsWritten, a1, events[1], false, apps);
    assert a2.running == [AppJob(apps[1])] && a2.q.apps == [apps[2]];
    // the resume starts the third behind it
    var a3 := Step(AsWritten, a2, events[2], false, apps);
    assert a3.running == [AppJob(apps[1]), AppJob(apps[2])];
    assert Run(AsWritten, a2, events[2..], false, apps) == a3;
    assert Run(AsWritten, a0, events, false, apps) == Run(AsWritten, a2, events[2..], false, apps);
  }

  /** Corrected, the resume finds a download running and leaves it alone. */
  lemma DoubleRelaunchCorrected()
    ensures var apps := ThreeApps();
      var r := Run(Corrected, Start(Queues([], [], [], false, [], []), apps), InstallThenResume(), false, apps);
      && r.running == [AppJob(apps[1])]
      && r.q.apps == [apps[2]]
  {
  }

  /** A file whose download fails, then the activity is paused and resumed. */
  function FailThenResume(): seq<QueueEvent> {
    [TaskDone(false), Resume(true)]
  }

  function OneFile(): RemoteFile {
    RemoteFile("a.cfg", Some("http://server/a.cfg"), false)
  }

  /**
   * As written, pausing closes the file's failure dialog and the resume finds
   * no application pending: the content is shown, the failed file is neither
   * retried nor dropped, and nothing runs.
   */
  lemma ResumeAfterFileFailureAsWritten()
    ensures var r := Run(AsWritten, Start(Queues([OneFile()], [], [], false, [], []), []), FailThenResume(), false, []);
      && r.screen == ShowContent
      && r.running == []
      && r.q.files == [OneFile()]
      && r.q.droppedFiles == []
  {
  }

  /** Corrected, the resume retries the file whose dialog was closed. */
  lemma ResumeAfterFileFailureCorrected()
    ensures var r := Run(Corrected, Start(Queues([OneFile()], [], [], false, [], []), []), FailThenResume(), false, []);
      && r.screen == FileTask(OneFile())
      && r.running == [FileJob(OneFile())]
      && r.q.files == []
  {
  }
}
