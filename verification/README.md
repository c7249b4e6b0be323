# OpenShift health-check operator: a verified model

The operator watches an OpenShift cluster and mails an administrator when something breaks and again when it recovers.
What it has already mailed is remembered in one small file per monitored condition: a file that holds `sent` stands for an
alert that has not been resolved. This project models three coupled pieces of it and proves properties of them.

**The alert ledger** (`Alerts`, `Histories`, `Goroutines`, `Races`, `Balance`, `Solo`). `Alerts.Ledger` is a class whose
fields the operations change step by step: the files, and a ghost log of what was attempted for each of them. An oracle
decides which file operation and which mail fails in each call. `Alerts.Deliver` and `Alerts.Process` are the
specification of one call and of a list of events; every handler is proved against a list of events, so everything
proved about the ledger holds for whatever the handlers do. `Goroutines` refines one call into the steps Stat, Read,
Truncate, Write, Mail and Remove, and lets the steps of any number of goroutines interleave; `Races` says exactly when
the schedule does not matter, and `Balance` exactly when alerts and resolved mails stay in balance whatever it is.

**The handlers** (`Cluster`, `Ignores`, `Pods`, `PodFiles`, `HubPods`, `HubScan`, `ScanOrder`, `Replays`, `Nodes`,
`Policies`, `Notices`). The readiness probes, the machine-config gate, the ignore lists, the pod, node and policy
handlers of the informers, their hub twins that scan whole lists, the sweep after a pod deletion, and the hourly
clean-up with one goroutine per file. Each is a method with the loops and early returns of the program, tied to the
events it sends; lemmas then say what those events do to the files and the mails.

**The reconciler** (`Conditions`, `Lifecycle`, `Checks`, `Reconciler`, `Passes`, `Stories`). `Lifecycle` is a state
machine over the fields under the mutex, at the granularity of single statements, for any number of workers.
`Reconciler.OcpHealthCheckReconciler` is the class with those fields; its methods are proved against the passes of the
state machine, including the guards and the deferred status update, and call the scans and the clean-up. `Passes` says
what a whole pass does to each file, and `Stories` follows the stored object, the lifecycle and the ledger through whole
runs of handlers and Reconcile calls.

## What comes from outside

The answers of the API server are one `Cluster.Api` snapshot per call, with flags for the queries that fail (one per
label selector and one per node name). Clock readings, the volume look-up, the answer about child policies, the order of
directory listings (any order, each name once) and of map iterations (any order), and the schedule of goroutines are
inputs or are chosen arbitrarily. The parser of time stamps, an RFC 3339 date-time as section 5.6 of RFC 3339 defines it, is
an uninterpreted partial function, and nothing assumes that the time stamps of the program parse. A file is named by its
directory and its name, so names are taken to contain no slash.

A write that fails leaves any prefix of `sent`, the whole of it when only closing the file failed. That last case puts
an `Unannounced` entry in the log: the file says that an alert is out, but none was attempted. Of a mail the
log keeps whether it is an alert or a resolved mail, its file, and whether the attempt succeeded; texts are not modelled.

## Where a property fails, and when it holds

- **Conservation of alerts.** Alert attempts equal removals, plus one if the file holds `sent`, if and only if no call of
  the run writes all of `sent` and still gets an error (`ConservationOfAlerts`). `SwallowedAlert` is such a run: the alert
  is lost for good. `Conservation` balances every run by counting such writes too.
- **One mail per unchanged status.** `ResyncBound` gives the exact condition: it holds if and only if the container is
  not a crashed one that restarted after a failed termination whose end can be parsed. `FlappingSendsTwice` counts
  the mails of such a container: two for every visit, however many there are.
- **One mail per unchanged object.** The same bound holds for every policy, for a node if and only if its conditions do
  not report it both ready and not ready (`NodeResyncBound`), and for an operator or a network policy if and only if its
  conditions do not report Degraded both as True and as something else (`DegradedResyncBound`).
- **Deletion.** The sweep after a deletion tests for substrings. It reclaims every file of the deleted pod. A file of
  another pod stays if and only if it does not hold `sent` or its whole name does not contain both names of the deleted
  pod (`DeletionOverreaches`); `DeletionSilencesAnother` is a pair of pods where an alert is lost.
- **Concurrent calls.** A call is check-then-act. When nothing fails, goroutines do under every schedule what they do in
  order if and only if no two of them have calls for one file (`IndependentExactly`); from disjoint files the same follows
  with failures too (`ScheduleIndependence`). The clean-up always meets that condition. The hub pod scan meets it unless
  two of its goroutines can reach one file (`ScanIsConfluent`), and `HubScanRaces` has two pods for which they can: keys
  do not separate the pod name from the container name.
- **Healthy.** When nothing fails, Healthy agrees with the mail history after goroutines if and only if no two of them
  alert one file and no two recover one file (`HonestExactly`). `SharedFileTurnsDishonest` is a hub pod scan after which
  it does not: the directory is empty and an alert was never resolved. A status update that fails loses the Healthy and
  the Ready condition just computed, so the stored Healthy speaks of the last update that succeeded.
- **Probes.** The cluster-wide probe counts an unknown readiness, the narrow probes do not; `ReadinessGap` says exactly
  on which nodes they part.

Where the code and its comments differ the model follows the code. The comment on `suspendEmailAlert` says that it
suspends mails when it is true; the code sends them only when it is false, so a missing value suspends them as well. The
comment on `checkInterval` promises a frequency of checks; Reconcile does not read it and rolls after three minutes.
`PodCheck` notes twice that the restart count of a recovered container is always positive; its branches also handle zero,
and so does the model.

## Model

| member | source | states |
|---|---|---|
| `Alerts.Ledger.constructor` | internal/util/util.go:224-226 | a new ledger has no files, no log and no calls |
| `Alerts.Ledger.SendEmailAlert` | internal/util/util.go:224-263 | for every combination of failing operations, the new files, log and call count are those of `SendAlert`: nothing but the path changes, a file that holds SENT is left alone, and a mail is attempted only after the write reported success |
| `Alerts.Ledger.WriteAndMail` | internal/util/util.go:226-237 | the write followed, only when it succeeds, by one alert attempt, with each residue of a failed write |
| `Alerts.Ledger.SendEmailRecoveredAlert` | internal/util/util.go:265-284 | only a file that can be read and holds SENT gets a resolved attempt, and it is removed even when the mail fails, unless the removal fails |
| `Alerts.Ledger.SendEmail` | internal/util/util.go:410-421 | one event has the effect of one call when mails are explicitly not suspended, and none otherwise |
| `Alerts.Ledger.ReadDir` | internal/util/util.go:827-830 | the listing has each name of a file of the alert directory exactly once and no other |
| `Alerts.DeliverFrame` | internal/util/util.go:224-284 | a call on one path leaves the file and the history of every other path alone, whatever fails |
| `Alerts.CallAttempts` | internal/util/util.go:224-284 | exactly which failures stop an alert attempt, a resolved attempt and a removal, and that a removal follows a resolved attempt whether or not its mail went out |
| `Alerts.DeliverLocal` | internal/util/util.go:224-284 | what a call does to a path depends on nothing but the file and the history of that path |
| `Alerts.RunFrame` | internal/util/util.go:224-284 | a run without events for a path leaves that path alone |
| `Alerts.ProcessSuspended` | internal/util/util.go:410-421 | with mails suspended no list of events changes files, log or call count |
| `Alerts.ProcessFaultFree` | internal/util/util.go:410-421 | with mail on and no failures a ledger does exactly the pure run of the events |
| `Histories.DeliverKeepsArmed` | internal/util/util.go:224-284 | one call, with any failures, keeps the history of every path replayable and in step with whether the file holds SENT |
| `Histories.RunKeepsArmed` | internal/util/util.go:224-284 | after every run from nothing, replaying the history of a path tells whether its file holds SENT |
| `Histories.Conservation` | internal/util/util.go:224-284 | in every run from nothing, with any failures: alerts plus unannounced writes equal removals, plus one if the file holds SENT |
| `Histories.ConservationOfAlerts` | internal/util/util.go:224-284 | alerts alone balance removals if and only if no call of the run reaches a write that fails after its last byte |
| `Histories.SwallowedAlert` | internal/util/util.go:226-230 | one such write, and however many alert calls follow with whatever failures, the file holds SENT and nothing was ever mailed |
| `Histories.AlertsAreSeparated` | internal/util/util.go:224-284 | a second alert for a path comes directly after a resolved attempt and its removal, both after the first alert |
| `Histories.ResolvedFollowsAlert` | internal/util/util.go:265-284 | every resolved attempt follows an entry that set the file and has not been removed since |
| `Histories.EdgeDetector` | internal/util/util.go:224-284 | in a fault-free run a file is there exactly when the last verdict of its path is faulty, and the mails of the path are exactly the changes of verdict |
| `Histories.ChangesAlternate` | internal/util/util.go:224-284 | the changes of any verdict sequence alternate, faulty first, and their number tells the verdict in force |
| `Histories.MailsAlternate` | internal/util/util.go:224-284 | the mails of a path strictly alternate alert, resolved, alert |
| `Histories.LedgerHoldsLastVerdicts` | internal/util/util.go:224-284 | after any fault-free trace from nothing, the files are exactly the map of the paths whose last event is faulty |
| `Histories.RunProjects` | internal/util/util.go:410-421 | a run does to a path what the events of that path alone do |
| `Histories.HealthAgreesWithMail` | internal/controller/ocphealthcheck_controller.go:299-305 | Healthy, as computed from the listing, holds exactly when every path of the alert directory has had as many resolved as alert attempts |
| `Goroutines.FinishIsRunCalls` | internal/util/util.go:224-284 | a goroutine that runs alone, step by step, does what its atomic calls do, with any failures |
| `Goroutines.MicroFrame` | internal/util/util.go:224-284 | no single step touches the path of another call |
| `Goroutines.MicroLocal` | internal/util/util.go:224-284 | the next step and its effect on a path depend only on the path of the current call and that path |
| `Goroutines.ScheduleIndependence` | internal/util/util.go:870-895 | goroutines with disjoint paths leave, under every complete schedule and with any failures, the files and the per-path histories of running them one after the other |
| `Goroutines.SameFileRace` | internal/util/util.go:224-237 | the smallest race: under one schedule two goroutines that alert the same absent file both send the alert, and one after the other they send it once; which programs race in general is `Races.IndependentExactly` |
| `Goroutines.StepGoroutine` | internal/util/util.go:224-284 | one step on the real ledger is one transition of the step model |
| `Goroutines.RunGoroutines` | internal/util/util.go:870-895 | starting any goroutines and waiting for them, with the scheduler free at every step, is one of their complete schedules, and ends as running them in order when their paths are disjoint |
| `Races.AlertsRace` | internal/util/util.go:225-237 | two goroutines about to alert one absent file have a schedule in which both mails go out |
| `Races.RecoveriesRace` | internal/util/util.go:269-281 | two goroutines about to recover one SENT file have a schedule in which both resolved mails go out |
| `Races.RecoveryOvertakes` | internal/util/util.go:225-281 | a recovery can mail that an alert is resolved before the alert itself is mailed |
| `Races.SharedPathRaces` | internal/util/util.go:224-284 | two goroutines with events for one path, whatever else they do: from a ledger that is empty or holds one alert there is a complete schedule whose mails for the path do not alternate, while those of the sequential run do |
| `Races.IndependentExactly` | internal/util/util.go:224-284 | goroutines without failures do from every world and under every complete schedule what they do in order if and only if no two of them have calls for one path |
| `Balance.StepBalances` | internal/util/util.go:224-284 | every step of a goroutine without failures changes alerts less resolved mails less files only by what the goroutine still owes: the mail for a file it has written, or the removal of a file whose recovery it has mailed |
| `Balance.OneSidedKeepsEven` | internal/util/util.go:224-284 | if at most one goroutine alerts a file and at most one recovers it, every complete schedule leaves its alerts and resolved mails in balance with the file, whatever goroutines do to other files |
| `Balance.TwoSidesRace` | internal/util/util.go:224-284 | two goroutines with the same verdict for a file have a complete schedule after which they are out of balance |
| `Balance.BalanceExactly` | internal/util/util.go:224-284 | every complete schedule from every balanced world keeps the balance of a file if and only if at most one goroutine alerts it and at most one recovers it |
| `Balance.RaceTurnsDishonest` | internal/controller/ocphealthcheck_controller.go:299-305 | otherwise some schedule and some recoveries leave an empty alert directory and mails that do not balance, so that Healthy is true and should not be |
| `Balance.HonestExactly` | internal/controller/ocphealthcheck_controller.go:299-305 | after goroutines without failures under every schedule, and any events after them, Healthy agrees with the mail history if and only if that condition holds for every file of the alert directory |
| `Solo.AloneBetween` | internal/util/util.go:224-284 | a goroutine that runs alone and is between two calls has done exactly the calls behind it |
| `Solo.PrivateBetween` | internal/util/util.go:870-895 | among others, a goroutine between two calls has left the files that only it touches as its calls so far alone leave them, at every moment of every schedule |
| `Solo.FilesComeFromAlerts` | internal/util/util.go:224-284 | at every moment of every schedule a file was there at the start or some goroutine alerts it |
| `Cluster.CheckSingleNodeReadiness` | internal/util/util.go:312-326 | an error exactly for a failed or unknown look-up, otherwise affected exactly when unschedulable or some Ready condition is False |
| `Cluster.SingleNodeExactly` | internal/util/util.go:312-326 | unaffected exactly when the look-up works and the first node of the name is schedulable and has no Ready condition that is False |
| `Cluster.FilterFirst` | internal/util/util.go:329-337 | the first node with the labels of a selector is the first that is listed |
| `Cluster.CheckNodeReadiness` | internal/util/util.go:328-349 | an error exactly when the query fails; otherwise names the first selected node that is not ready, and names none only if there is none |
| `Cluster.AllNodeReadiness` | internal/util/util.go:457-475 | affected exactly when some node is unschedulable or has a Ready condition other than True |
| `Cluster.ProbesAreConsistent` | internal/util/util.go:312-475 | on one snapshot, when the cluster-wide probe reports nothing no narrow probe reports anything, for every selector and every name; a named node satisfies the selector and makes the cluster-wide probe report |
| `Cluster.ReadinessGap` | internal/util/util.go:328-475 | the exact nodes that the wide probe counts and the narrow ones do not |
| `Cluster.CheckNodeMcpAnnotations` | internal/util/util.go:351-369 | names the first selected node whose state annotation is there and not Done, for every order of the annotations |
| `Cluster.CheckMCPINProgress` | internal/util/util.go:746-767 | the nested scan with its early returns and errors computes the gate |
| `Cluster.GateIsExact` | internal/util/util.go:746-767 | without an error the gate is true exactly when some pool has Updating=True and some node with all labels of its selector has a state annotation other than Done; it is an error exactly when the pools cannot be read or a query fails before an update is found |
| `Ignores.JoinSplit` | internal/util/util.go:956 | joining the parts of an entry with slashes gives the entry back |
| `Ignores.SplitAfter` | internal/util/util.go:956 | splitting at the first slash |
| `Ignores.NamesExactly` | internal/util/util.go:955-961 | an entry ignores a resource exactly when it is namespace/name, or that followed by a slash and anything |
| `Ignores.IgnoredExactly` | internal/util/util.go:950-998 | a resource is ignored exactly when some map of the list has an entry that is namespace/name, or that and a slash and anything, or lists its namespace |
| `Ignores.IgnoredResource` | internal/util/util.go:950-998 | for every order of the kinds, true exactly when some entry names the resource or some entry is its namespace |
| `Pods.HasPvScan` | internal/util/util.go:1000-1009 | true exactly when some volume has a claim with a name |
| `Pods.PodCheck` | internal/util/util.go:1131-1204 | the overlapping decision trees send exactly the listed events, in order, on a ledger with any failures |
| `Pods.AlertByName` | internal/util/util.go:1161-1180 | one alert event for every container of the spec with the name of the status |
| `Pods.UniformRun` | internal/util/util.go:224-284 | any number of equal verdicts on a path does what one does and leaves other paths alone |
| `Pods.PodCheckIsLocal` | internal/util/util.go:1131-1204 | for every status, exclusive or not, one fault-free call touches one file, attempts at most one alert and at most one resolved mail, and leaves the file as its last verdict says |
| `Pods.PodCheckVerdict` | internal/util/util.go:1131-1204 | afterwards the file holds SENT exactly when the status counts as failing, or it did before and the status does not count as healed, both spelled out in exit codes, reasons, claims and the thirty minutes |
| `Pods.AtMostOneMail` | internal/util/util.go:1131-1204 | replaying the status of a container that is not flapping sends at most one mail in all, from any world |
| `Pods.FlappingSendsTwice` | internal/util/util.go:1131-1204 | n late visits of a flapping container send 2n mails |
| `Pods.ResyncBound` | internal/util/util.go:849-1204 | the bound of one mail over every clock and every number of replays holds if and only if the container is not flapping |
| `Pods.CheckStatuses` | internal/util/util.go:945-947 | each status of the list is checked in order |
| `Pods.ContainerEventsFor` | internal/util/util.go:939-947 | when the container names differ, the events of a pod for the file of one container are those of that container alone |
| `Pods.OnPodUpdate` | internal/util/util.go:899-948 | the handler sends nothing for an undecodable, deleted, ignored, gated or held pod and otherwise checks the init containers and then the containers |
| `Pods.PodIgnoredExactly` | internal/util/util.go:950-973 | which pods the lists pod and podnamespace ignore |
| `Pods.PodHeldExactly` | internal/util/util.go:922-937 | a pod is not held exactly when no child policy is in progress in its namespace and its node is there, schedulable and not unready |
| `Pods.PodUpdateVerdict` | internal/util/util.go:899-948 | exactly what one update of a pod does to the file of each of its containers, through every guard |
| `PodFiles.Sweep` | internal/util/util.go:831-835 | one recovery event for every listed name that contains both the pod name and the namespace |
| `PodFiles.OnPodDelete` | internal/util/util.go:815-837 | no effect when the object, the gate or the directory says so, otherwise the sweep over a listing of the directory |
| `PodFiles.SweepIsExact` | internal/util/util.go:831-835 | the sweep clears exactly the SENT files whose names contain both, with one resolved mail each, and leaves every other path alone |
| `PodFiles.PodKeyMentions` | internal/util/util.go:1133 | every file of every container of a pod contains its name and its namespace |
| `PodFiles.DeletionReclaims` | internal/util/util.go:815-837 | after a deletion no container of the pod, whatever its name, has a file that holds SENT |
| `PodFiles.DeletionOverreaches` | internal/util/util.go:831-835 | the file and history of a container of any other pod survive a deletion if and only if the file does not hold SENT or its whole name does not contain both names of the deleted pod; otherwise it is cleared |
| `PodFiles.SimilarPodMentioned` | internal/util/util.go:832 | all files of a pod whose name and namespace contain those of the deleted pod are among them |
| `PodFiles.DeletionSilencesAnother` | internal/util/util.go:831-835 | the deletion of pod web in prod clears the alert of container web of pod x in prod, although the pod names have nothing in common |
| `PodFiles.DeletionSparesNamespace` | internal/util/util.go:831-835 | a pod of the same name in another namespace keeps its alert |
| `PodFiles.RecoverFromPod` | internal/util/util.go:877-889 | the calls of one file goroutine for one pod |
| `PodFiles.RecoverFile` | internal/util/util.go:873-892 | the calls of one file goroutine over all pods |
| `PodFiles.FileRecoveryExact` | internal/util/util.go:873-892 | a file goroutine has only recovery calls for its own file, and has one exactly when some container matches the file, is running or completed, and has not restarted or has its timer up |
| `PodFiles.SomeRecoversExactly` | internal/util/util.go:876-888 | that condition spelled out: the key of the container, running or exit code zero, and no restart or a last termination more than thirty minutes ago |
| `PodFiles.CleanupOwnsItsFile` | internal/util/util.go:872-892 | each goroutine touches only its own file |
| `PodFiles.CleanupDisjoint` | internal/util/util.go:872-892 | no two goroutines of the clean-up have calls for the same path |
| `PodFiles.PlanCleanup` | internal/util/util.go:872-893 | one goroutine for each listed file, with that file's calls |
| `PodFiles.CleanUpRunningPods` | internal/util/util.go:860-897 | with any failures and any schedule, the effect of processing the listed files one by one; nothing when the directory cannot be read or mails are suspended |
| `PodFiles.CleanupIsExact` | internal/util/util.go:860-897 | when nothing fails, every complete interleaving clears exactly the listed SENT files with a matching recoverable container, with one resolved mail each, and leaves all other paths alone |
| `HubPods.Consider` | internal/hubutil/pod.go:63-79 | the guards: skipped exactly when ignored, given up exactly when the node is affected or unknown or a child policy is in progress or unknown |
| `HubPods.ScanPod` | internal/hubutil/pod.go:61-103 | whether the goroutine gives up at a pod, and otherwise the events of that pod, with a fresh listing for a deleted one |
| `HubPods.ScanNode` | internal/hubutil/pod.go:51-104 | the goroutine of a node run alone handles exactly the pods before the first one at which it gives up, each deleted pod with the listing of the directory at that moment; without deletions its events are those of the node's program |
| `HubPods.VisitedDoNotStop` | internal/hubutil/pod.go:61-93 | the pods visited are the longest prefix in which every pod is ignored, or is not held and, if it is being deleted, finds the directory readable |
| `HubPods.NodeScanRefinesHandler` | internal/hubutil/pod.go:51-104 | with the gate open and no pod being deleted, the goroutine of a node has the events of the informer handler applied to each pod of that prefix |
| `HubPods.HubProgramsDisjoint` | internal/hubutil/pod.go:49-106 | when no file belongs to containers on two nodes, no two goroutines have calls for the same path |
| `HubPods.HubScanScheduleIndependence` | internal/hubutil/pod.go:49-106 | under every complete interleaving, with any failures and goroutines that give up early, the ledger ends as when the nodes are scanned in order |
| `HubPods.HubScanRefinesHandler` | internal/hubutil/pod.go:34-107 | when nothing fails, every complete interleaving has the effect of the informer handler applied to the visited pods of the nodes in order |
| `HubPods.HubScanIndependentExactly` | internal/hubutil/pod.go:49-106 | a scan without failures and deletions does under every complete schedule what it does in order if and only if no file gets events from two of its goroutines |
| `HubPods.HubScanRaces` | internal/hubutil/pod.go:49-106 | container c of pod a-b and container b-c of pod a in one namespace have one file; failing on two nodes, both alert it under some schedule, and once in order |
| `HubScan.PlanStatuses` | internal/hubutil/pod.go:80-88 | the events of the container statuses of one list |
| `HubScan.PlanSweep` | internal/hubutil/pod.go:94-98 | the recoveries of a deleted pod for one listing |
| `HubScan.NextPod` | internal/hubutil/pod.go:61-103 | what a goroutine decides at a pod: give up, or the events of the pod, with a fresh listing of the directory for a deleted one |
| `HubScan.StepWorker` | internal/hubutil/pod.go:51-104 | one step of a call of one goroutine keeps the invariant of all goroutines |
| `HubScan.FetchPod` | internal/hubutil/pod.go:61-103 | a goroutine that comes to its next pod, or gives up at it, keeps the invariant of all goroutines |
| `HubScan.RunWorkers` | internal/hubutil/pod.go:49-106 | all goroutines, with their guards, early returns, listings and calls interleaved step by step and any failures, make a complete run: each handles exactly the pods before the first one at which it gives up, in order, and for a deleted pod reads the directory after its calls for the earlier pods and before those for this one |
| `HubScan.CompleteScanInOrder` | internal/hubutil/pod.go:49-106 | a complete run in which no path has calls from two goroutines ends as the goroutines one after the other |
| `HubScan.ApartScanInOrder` | internal/hubutil/pod.go:49-106 | the same with deletions, when no file is within reach of two goroutines, either as a container's own or as one listed for a deleted pod that it mentions |
| `HubScan.ScanIsHubPrograms` | internal/hubutil/pod.go:49-106 | without deletions and shared files a complete run ends as scanning the nodes in order |
| `HubScan.OnPodUpdateHub` | internal/hubutil/pod.go:34-107 | silent when gated, when the nodes cannot be listed or when mails are suspended; otherwise a complete run of the goroutines, deletions included, which ends as scanning the nodes in order when there are none and no file is shared |
| `ScanOrder.ListedIsKnown` | internal/hubutil/pod.go:90-98 | a name that a goroutine reads was there before the scan or is that of a container of a live pod it handles |
| `ScanOrder.ApartFromIsDisjoint` | internal/hubutil/pod.go:49-106 | if no file that was there, or that the scan can write, can be reached by two goroutines, then no two goroutines have calls for one path, whatever they read |
| `ScanOrder.FrontHolds` | internal/hubutil/pod.go:80-98 | when a goroutine comes to a pod, a file that only it touches is as its own calls for the pods before leave it |
| `ScanOrder.SweepOfPrivate` | internal/hubutil/pod.go:90-98 | the sweep for a deleted pod clears a file that only this goroutine touches exactly when it holds SENT at that point of the goroutine's own calls |
| `ScanOrder.SameFront` | internal/hubutil/pod.go:61-103 | in two runs of one scan a goroutine does the same, pod by pod, to the files that only it touches |
| `ScanOrder.ScanIsConfluent` | internal/hubutil/pod.go:49-106 | schedule independence with deletions: from one ledger any two complete runs of a scan without failures end with the same files and per-path histories, although the goroutines take their steps, read the directory and give up at different times |
| `ScanOrder.ScanReclaims` | internal/hubutil/pod.go:89-99 | in every complete run without failures a handled pod under deletion has every SENT file cleared whose name contains its name and its namespace and that no live handled container owns, with one resolved mail each |
| `ScanOrder.ScanLeavesAbsent` | internal/hubutil/pod.go:49-106 | a file that is not there and belongs to no live handled container does not come into being |
| `ScanOrder.ScanVerdict` | internal/hubutil/pod.go:80-88 | in every complete run without failures the file of a container of a live handled pod holds SENT afterwards exactly as the verdict of its check says |
| `ScanOrder.ScanAvoids` | internal/hubutil/pod.go:49-106 | a file within no goroutine's reach stays, with any failures |
| `Checks.RunEvents` | internal/controller/ocphealthcheck_controller.go:281-294 | checks that are not modelled beyond their events send them in order |
| `Checks.RunCleanup` | internal/util/util.go:860-897 | the clean-up as a relation between ledgers |
| `Checks.RunHubChecks` | internal/controller/ocphealthcheck_controller.go:274-298 | the checks of a full hub pass in their order: pod scan with its goroutines, node scan, policy scan, clean-up with its goroutines, and arbitrary events of the other checks where those run |
| `Checks.HubPassKeepsAllEven` | internal/controller/ocphealthcheck_controller.go:274-298 | a hub pass without failures whose pod scan has at most one goroutine alerting, and one recovering, each file keeps alerts and resolved mails in balance with the files |
| `Checks.ApartScanIsOneSided` | internal/hubutil/pod.go:49-106 | a scan in which no file can be reached by two goroutines meets that condition |
| `Checks.SharedFileTurnsDishonest` | internal/hubutil/pod.go:49-106 | the two pods of `HubPods.HubScanRaces`: after their scan and some recoveries nothing has failed, the alert directory is empty, and an alert has not been resolved |
| `Nodes.ReportReady` | internal/util/util.go:805-811 | one event for every Ready condition that is True or False, in order |
| `Nodes.OnNodeUpdate` | internal/util/util.go:770-812 | for every order of the annotations the handler sends exactly the listed events |
| `Nodes.NodeVerdict` | internal/util/util.go:770-812 | exactly what the handler does to the three files of a node, in the states, conditions and file names of the program |
| `Nodes.NodeTouchesThree` | internal/util/util.go:770-812 | no other file changes |
| `Nodes.NodeMails` | internal/util/util.go:770-812 | one run mails at most once for the update, at most once for the scheduling, and at most once for each Ready condition that is True or False |
| `Nodes.NodeResyncBound` | internal/util/util.go:770-812 | an unchanged node that is reported any number of times sends at most one mail for every file, from any world, if and only if the handler does not find it both ready and not ready |
| `Nodes.ReachedExact` | internal/hubutil/node.go:36-71 | the nodes reached are the shortest prefix that ends with a live node that is Working, Rebooting, Degraded, Unreconcilable or unschedulable, or the whole list |
| `Replays.QuietExactly` | internal/util/util.go:410-421 | events that are sent again and again mail at most once for a path, from any world, if and only if they do not have both verdicts for it |
| `Nodes.ScanOne` | internal/hubutil/node.go:37-69 | one node of the hub scan sends the events of the informer handler, and ends the scan exactly at a live node that is updating, stuck or unschedulable |
| `Nodes.OnNodeUpdateHub` | internal/hubutil/node.go:30-73 | refinement: on any ledger, with any failures, the hub scan ends as the informer handler applied node by node to the prefix reached |
| `Policies.IsChildPolicy` | internal/util/util.go:623-630 | true exactly when the parent label is there, for every order of the labels |
| `Policies.ReportDetails` | internal/util/util.go:593-601 | one alert event for every detail whose newest entry is no older than six hours |
| `Policies.OnPolicyUpdate` | internal/util/util.go:574-607 | the handler sends nothing for an undecodable, deleted, ignored or child policy, and otherwise exactly the listed events |
| `Policies.DetailEventsExact` | internal/util/util.go:593-601 | all these events are alerts for the policy's file, and there is one exactly when some detail is recent |
| `Policies.PolicyVerdict` | internal/util/util.go:590-606 | the file holds SENT afterwards exactly when the root policy is failing with a message of the last six hours, or it did before and the policy is not a compliant, enabled root policy; no other file changes |
| `Policies.PolicyUpdateVerdict` | internal/util/util.go:574-607 | the same for a whole update, and nothing for a policy that is deleted or ignored |
| `Policies.PolicyIgnoredExactly` | internal/util/util.go:975-998 | which policies the lists policy and policynamespace ignore |
| `Policies.PolicyResyncBound` | internal/util/util.go:574-607 | an unchanged policy that is reported any number of times, at whatever times, sends at most one mail, from any world |
| `Policies.HandledExact` | internal/hubutil/policy.go:39-44 | the policies handled are the longest prefix without one that is being deleted and not ignored |
| `Policies.OnPolicyUpdateHub` | internal/hubutil/policy.go:33-68 | refinement: on any ledger, with any failures, the hub scan ends as the informer handler applied policy by policy to the policies handled |
| `Notices.ReportDegraded` | internal/util/util.go:446-454 | one event for every Degraded condition, faulty exactly when it is True |
| `Notices.OnCoUpdate` | internal/util/util.go:423-455 | silent for an undecodable or deleted operator, behind a shut gate, or when a node is affected or unknown |
| `Notices.OnNNCPUpdate` | internal/util/util.go:477-502 | silent for an undecodable or deleted object or behind a shut gate |
| `Notices.OnCatalogSourceUpdate` | internal/util/util.go:504-524 | behind an open gate one event, recovered exactly when the connection state is READY |
| `Notices.OnCsvUpdate` | internal/util/util.go:526-552 | behind an open gate and outside child policies one event, recovered exactly when the phase is Succeeded |
| `Notices.CoVerdict` | internal/util/util.go:423-455 | behind the guards, with every node schedulable and all its Ready conditions True, the last Degraded condition decides whether the file holds SENT |
| `Notices.NncpVerdict` | internal/util/util.go:477-502 | the same without a look at the nodes |
| `Notices.CatalogVerdict` | internal/util/util.go:504-524 | behind the guards the file holds SENT exactly when the state is not READY, with at most one mail |
| `Notices.CsvVerdict` | internal/util/util.go:526-552 | behind the guards the file holds SENT exactly when the phase is not Succeeded, with at most one mail |
| `Notices.DegradedResyncBound` | internal/util/util.go:446-454 | unchanged conditions send at most one mail in all if and only if they do not report Degraded both as True and as something else |
| `Notices.ShutGateSilences` | internal/util/util.go:434-920 | any run of notifications, with any failures, has the effect of the run without those whose gate is true or an error |
| `Notices.AllShutAllSilent` | internal/util/util.go:434-920 | while every gate is shut the gated handlers leave files, log and call count as they are |
| `Notices.TrafficIsSteady` | internal/util/util.go:899-948 | in mixed traffic all events for the file of an unchanged container carry its one verdict |
| `Notices.ResyncBoundInTraffic` | internal/util/util.go:899-1204 | in any fault-free traffic, whatever the gate, nodes and volumes answer each time, an unchanged container that is not flapping gets at most one mail |
| `Conditions.Status.GetReadyCondition` | internal/util/util.go:150-157 | the first Ready entry, or none |
| `Conditions.Status.SetReadyCondition` | internal/util/util.go:166-187 | the new list of conditions; Healthy is untouched |
| `Conditions.SetTouchesOnlyReady` | internal/util/util.go:166-187 | on any list, only the first Ready entry changes, or one is added at the end |
| `Conditions.ConditionHistory` | internal/util/util.go:150-187 | after any calls with non-empty statuses on a list without Ready there is one Ready entry, with the last status, reason and message and the time of the first call in the current run of equal statuses; all other conditions keep value and order |
| `Lifecycle.PassKeepsGeneration` | internal/controller/ocphealthcheck_controller.go:309-503 | every pass keeps one consistent generation or none, and neither closes a nil or closed channel nor reads a nil timer |
| `Lifecycle.PassKeepsRates` | internal/controller/ocphealthcheck_controller.go:311-413 | every pass keeps rolls more than three minutes and clean-ups more than an hour apart |
| `Lifecycle.PassExactly` | internal/controller/ocphealthcheck_controller.go:311-496 | a pass starts a generation exactly when there is none, rolls exactly when the informer timer is more than three minutes old, and then cleans up exactly when the clean-up timer is more than an hour old; with the new timers |
| `Lifecycle.LifeInvariants` | internal/controller/ocphealthcheck_controller.go:309-503 | both hold after any sequence of passes from the start |
| `Lifecycle.StepKeepsPosition` | internal/controller/ocphealthcheck_controller.go:313-502 | every statement of the section takes a worker from a justified position to a justified position |
| `Lifecycle.ReachKeepsInv` | internal/controller/ocphealthcheck_controller.go:309-503 | the invariant of all reachable states of all workers, inside and outside the section |
| `Lifecycle.PassesAreSerial` | internal/controller/ocphealthcheck_controller.go:309-310 | whenever the mutex is free, the fields are those of the completed passes one after the other |
| `Lifecycle.SingleLiveGeneration` | internal/controller/ocphealthcheck_controller.go:309-502 | under every interleaving nothing panics, and whenever the mutex is free nothing has been built, or factory, channel, timers and all ten informers are there and belong to one generation whose channel is open, every earlier one closed exactly once |
| `Lifecycle.OneMoreStartedThanClosed` | internal/controller/ocphealthcheck_controller.go:316-401 | generations started are one more than channels closed |
| `Lifecycle.RateBounds` | internal/controller/ocphealthcheck_controller.go:311-413 | after n rolls the informer timer is more than 3n minutes past the first start; after k clean-ups the clean-up timer is more than k hours past it; k is at most n |
| `Lifecycle.Promptness` | internal/controller/ocphealthcheck_controller.go:311-413 | under every interleaving, whenever the mutex is free after a pass, that pass left no roll and, if it rolled, no clean-up undone |
| `Reconciler.OcpHealthCheckReconciler.constructor` | internal/controller/ocphealthcheck_controller.go:309-313 | a new reconciler has built nothing and satisfies the invariant |
| `Reconciler.OcpHealthCheckReconciler.MakeInformers` | internal/controller/ocphealthcheck_controller.go:331-340 | all ten informers belong to the current factory |
| `Reconciler.OcpHealthCheckReconciler.DropInformers` | internal/controller/ocphealthcheck_controller.go:317-325 | nine informers become nil and the Trident informer stays |
| `Reconciler.OcpHealthCheckReconciler.TearDown` | internal/controller/ocphealthcheck_controller.go:316-327 | the old channel is closed once and the fields of the generation become nil |
| `Reconciler.OcpHealthCheckReconciler.Roll` | internal/controller/ocphealthcheck_controller.go:315-401 | the whole roll, statement by statement, is the transition of the state machine |
| `Reconciler.OcpHealthCheckReconciler.FirstStart` | internal/controller/ocphealthcheck_controller.go:423-496 | the first start is the transition of the state machine and sets both timers |
| `Reconciler.OcpHealthCheckReconciler.ComputeHealthy` | internal/controller/ocphealthcheck_controller.go:299-305 | Healthy becomes true exactly when the alert directory is empty, and is kept when it cannot be read |
| `Reconciler.OcpHealthCheckReconciler.CleanIfDue` | internal/controller/ocphealthcheck_controller.go:407-413 | the clean-up and its timer, exactly when more than an hour has passed |
| `Reconciler.OcpHealthCheckReconciler.RollPass` | internal/controller/ocphealthcheck_controller.go:314-421 | the roll, the report, the checks, the clean-up and Healthy of one pass, in order |
| `Reconciler.OcpHealthCheckReconciler.StartPass` | internal/controller/ocphealthcheck_controller.go:422-502 | the first start, its checks and the report, with Healthy kept |
| `Reconciler.OcpHealthCheckReconciler.InformerPass` | internal/controller/ocphealthcheck_controller.go:309-503 | one pass keeps the invariant, is the pass of the state machine, reports Ready only when it starts or rolls, and sets Healthy only when it rolls |
| `Reconciler.OcpHealthCheckReconciler.Guards` | internal/controller/ocphealthcheck_controller.go:116-143 | returns early exactly when a guard says so, with an error exactly for the guards that have one |
| `Reconciler.OcpHealthCheckReconciler.HubPassOf` | internal/controller/ocphealthcheck_controller.go:274-307 | the checks of a full hub pass, then Healthy from the listing after them, then the report |
| `Reconciler.OcpHealthCheckReconciler.Body` | internal/controller/ocphealthcheck_controller.go:177-504 | the answer, the conditions, the fields, the checks on the ledger and Healthy of every branch before the deferred report |
| `Reconciler.OcpHealthCheckReconciler.Reconcile` | internal/controller/ocphealthcheck_controller.go:113-504 | past the guards exactly one status update is attempted, with the final conditions; a failed update is an error without a requeue; before them nothing changes; conditions, Healthy, lifecycle and ledger change as the branch that the call reaches makes them, with the scans and the clean-up of that branch |
| `Reconciler.ExitContract` | internal/controller/ocphealthcheck_controller.go:154-180 | at the status update Ready, with its reason, message and time, is Unknown for an object without Ready, False when the call cannot be carried out, True after a full hub pass, a start or a roll, and all conditions are unchanged on an informer pass inside the three minutes; no other condition ever changes |
| `Reconciler.GuardsExactly` | internal/controller/ocphealthcheck_controller.go:116-143 | which calls return before the status update, and which of them with an error |
| `Reconciler.AnswerExactly` | internal/controller/ocphealthcheck_controller.go:177-504 | an object seen for the first time is not asked for again, a missing configuration or client is an error, a hub whose gate is shut is asked for after half an hour with an error, and every call that has run asks for another one |
| `Reconciler.HealthyExactly` | internal/controller/ocphealthcheck_controller.go:299-420 | a call computes Healthy exactly on a hub that it can scan or when it rolls, and then from the directory after its checks |
| `Passes.CallDoes` | internal/controller/ocphealthcheck_controller.go:266-504 | which checks a call runs: a full hub pass, the reachability checks of a start or a roll, the clean-up after more than an hour, or none |
| `Passes.InformerPassVerdict` | internal/controller/ocphealthcheck_controller.go:309-421 | an informer pass clears a file that its reachability checks do not touch exactly when the clean-up is due and recovers it, and otherwise leaves it alone |
| `Passes.HubPassMisses` | internal/controller/ocphealthcheck_controller.go:274-298 | a file that no check of a full hub pass touches stays |
| `Passes.HubPolicyVerdict` | internal/controller/ocphealthcheck_controller.go:279-280 | after a full hub pass the file of a handled policy holds SENT exactly as the verdict of the policy says, when no other check touches it |
| `Passes.HubNodeVerdict` | internal/controller/ocphealthcheck_controller.go:277-278 | the same for the files of a reached node |
| `Passes.HubContainerVerdict` | internal/controller/ocphealthcheck_controller.go:275-276 | the same for the file of a container of a handled live pod, under every schedule of the scan |
| `Passes.HubReclaims` | internal/controller/ocphealthcheck_controller.go:275-276 | after a full hub pass no file that mentions a handled pod under deletion, and that nobody else owns, holds SENT |
| `Passes.HubCleanupVerdict` | internal/controller/ocphealthcheck_controller.go:295-296 | a file that only the clean-up touches is cleared exactly when it holds SENT and a container recovers it |
| `Passes.HubOthersVerdict` | internal/controller/ocphealthcheck_controller.go:274-298 | for a file that only the remaining checks touch, their events take effect in the order of the pass |
| `Stories.StoryKeepsAllEven` | internal/controller/ocphealthcheck_controller.go:266-504 | handler runs and Reconcile calls, with their goroutines and mails on or suspended, keep alerts and resolved mails in balance with the files when nothing fails and pod scans meet the condition of `Balance.BalanceExactly` |
| `Stories.HealthyIsLastBalance` | internal/controller/ocphealthcheck_controller.go:167-175 | in such a story, in which status updates may fail, the stored Healthy is its first value until a call computes and stores it, and from then on says whether every path had as many resolved as alert attempts when it was last computed and stored |
| `Stories.FailedUpdateForgets` | internal/controller/ocphealthcheck_controller.go:171-174 | when the status update fails, the object keeps the conditions and the Healthy it had, while the lifecycle goes on |

## Left out

- The Kubernetes clients, REST queries, informer and watch internals, and the conversion of objects: snapshots, failure flags and a `converted` flag replace them.
- The texts of mails, logs and events, the sendmail command itself, and the host name they mention.
- The hub scans of operators, network policies, catalogs, service versions, Argo applications, managed clusters and certificate issuers, the tuned, Trident, HPE and EVNFM checks, and `OnMCPUpdate`: small siblings of the handlers modelled here.
- `OnPolicyDelete`, which clears files that no other handler writes, the handlers for additions, and `GetChildPolicyObjectNamespace`: whether a child policy is in progress in a namespace is an input.
- `GetAPIName` and the choice of the running host, manager set-up, flags, certificates, generated copies and manifests.
- Interleaving of handlers with each other: handlers of different informers are runs of atomic calls. Goroutines of the clean-up and of the hub pod scan are modelled step by step.
- HubPods.ScanNode: the visit of a container, its clock and its volume look-up, is one value per pod and container within a scan, here and in `HubScan`.
- HubScan.ApartScanInOrder: with failures, compares with the goroutines in order on the listings that they have read; without failures `ScanOrder.ScanIsConfluent` needs no such reading.
- Goroutines.ScheduleIndependence: the histories agree path by path; the order of mails for different paths depends on the schedule.
- Reconciler.OcpHealthCheckReconciler.Reconcile: every running or completed container with restarts must have a last termination, whether or not it has a file, because the files at clean-up are not known before the call; the checks that are left out above are arbitrary events at their place.
- Reconciler.OcpHealthCheckReconciler.Body: the same as for Reconcile.
- Checks.RunHubChecks: the same premise on last terminations, for the clean-up after the scans; the checks around the scans are arbitrary events.
- Stories.HealthyIsLastBalance: handler runs and calls happen one after the other, and a call stores the object that it fetched, without conflicting updates by others.
- Reconciler.OcpHealthCheckReconciler.InformerPass: runs as a whole; interleavings of workers, statement by statement, are in `Lifecycle`.
- Cluster.CheckMCPINProgress: pools that report an update must have a node selector, since the program reads it.
- Ignores.IgnoredResource: an entry for the namespace at hand must have a slash, since the program reads the part behind it.
- Notices.OnCatalogSourceUpdate: a live catalog source behind an open gate must have a connection state, since the program reads it.
- Policies.ReportDetails: a history that is not nil must have an entry, since the program reads the first one.
- PodFiles.CleanUpRunningPods: a running or completed container with restarts and a file must have a last termination, since the program reads it.
- Pods.ResyncBound: for statuses with at most one of running, waiting and terminated, as the API promises; `Pods.PodCheckIsLocal` has no such premise.
- Passes.HubPolicyVerdict: the verdicts of a hub pass are for files that no other check of the pass touches, mails on, nothing failing, and no file within reach of two goroutines of the pod scan; keys can collide, and then the last check wins.
