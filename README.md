# erda-sourcecov agent and operator core in Dafny

This project models the core of erda-sourcecov, a code-coverage service for Java
workloads running on Kubernetes. It has two halves.

**The agent** (`agent/core`) keeps two process-wide registries:

- `RunJobs` holds the coverage runs ("plans") that the coordinator asks for.
- `Services` holds the coverage-instrumented Deployments the agent watches.

For a running plan the agent does the following:

- extracts the classes and sources of every service's jars;
- dumps JaCoCo execution data from every healthy pod, once, and then every five minutes;
- merges the per-service dumps every tenth cycle;
- once the coordinator marks the plan "ending", merges everything into a project
  artifact, renders the XML and HTML reports and sends them back.

Failures are collected as error texts on services and pods. They are condensed into
a message of at most 1500 bytes for the coordinator.

**The operator** (`controllers/converter.go`) turns an `Agent` custom resource into
the four objects that run the agent: a ServiceAccount, a Role, a RoleBinding and a
StatefulSet. Before that, it fills in the defaults the resource leaves out.

Modules:

- `Strings`: the Go string operations used.
- `Addr`: the work-directory layout (`agent/core/addr.go`).
- `Watcher`: the value-level parts of `agent/core/watcher.go`:
  - the Service and Pod records;
  - Deployment recognition;
  - jar discovery;
  - the tar-extraction helpers.
- `Jobs`: the run record, statuses and constants of `agent/core/job.go`, plus the
  specification functions of its bookkeeping:
  - the pod dump scan and its write-back;
  - the per-service merge;
  - the callback message;
  - the class-source jar list;
  - the merge command line.
- `Core`: class `Registries`, holding the two registries, the coordinator calls made
  (`outbox`), the Maven settings file and the process environment. Every registry
  operation of `job.go` and `watcher.go` is a method on it.
- `Converter`: `controllers/converter.go`.

How the model represents things:

- **External actions are inputs.** Processes, temp files, TCP dials, HTTP callbacks,
  pod copies and filesystem walks are parameters giving each action's outcome. For
  example, `run` maps an argument vector (program first) to its error, if any.
- **Range order is explicit where it matters.** Where the result depends on the order
  in which `sync.Map.Range` visits services (the message and the jar list), that order
  is a parameter `order`. It must list every registered service name exactly once
  (`Strings.ListsOnce`), as a Range visit does. The project merge's sources, which
  `report` collects by ranging over a Go map, are returned as a ghost result. They are
  stated to hold each artifact once, in some order of the services (`Core.ListsValues`).
  Elsewhere the visit order is left arbitrary.
- **A panic is a result.** `getServiceJarPackage` reads the first pod of a service
  (`agent/core/watcher.go:348`). For a service without pods, such as a new Deployment
  whose pods are not yet listed, this is an index panic that ends the agent process,
  because nothing recovers it. The model returns it as `Watcher.NoPodPanic` and as the
  `panicked` result of `ReloadJarAddr` and `SaveServices`, with nothing stored.
- **`DumpLock` is a flag.** It is the `dumpLocked` field on a run. An operation that
  would wait on a held lock returns `blocked` and changes nothing.
- **Cancellation is a flag.** A run's context being cancelled is its `cancelled` field.

Some of the code's behaviour is easy to miss; the model follows the code:

- **The ready notification is not idempotent.** `callbackReady` skips only when the
  coordinator's status of the run is "ready" (`agent/core/callback.go:163-165`). The
  agent never sets that status itself, since it writes `JobStatus`. So
  `Core.Registries.CallbackReady` sends once per call on a run the coordinator still
  reports as running.
- **`DeleteService` removes nothing.** It deletes the name from `RunJobs`
  (`agent/core/watcher.go:71-73`), where every key is a plan id. A deleted service
  therefore stays registered with `IsDelete` set (`Core.Registries.DeleteService`).
- **The run's error text appears twice.** The message contains it once before the
  label "job error message: " and once after it (`agent/core/job.go:288-291`,
  `Jobs.JobSection`).
- **A successful jar reload keeps the old error text.** `reloadJarAddr` does not clear
  a service's earlier error (`Core.Reloaded`). Such a service stays excluded from class
  extraction.
- **Entry names keep their parent segments.** `unTarAll` strips only the copy prefix
  from an entry's name and joins the rest onto the destination
  (`agent/core/watcher.go:433`). An entry named with "../" therefore lands outside the
  destination directory (`Watcher.NoContainmentCheck`).
- **A late report failure sends two end callbacks.** Once the xml archive is made,
  `report` sends a success end callback. If a later step fails, the watchdog then sends
  a fail end callback for the same run (`agent/core/job.go:115-118`,
  `Core.Registries.ReportOrEnd`).
- **`report` keeps `DumpLock` held after three early failures.** On the failures at
  `agent/core/job.go:194-210` it returns without unlocking
  (`Core.ReportFailure.HeldLock`). Every later dump or merge of that run is then
  blocked.

## Model

| member | source | states |
|---|---|---|
| `Strings.TrimLeft` | agent/core/watcher.go:501-503 | the result is a suffix of the input, does not start with the cut character, and everything cut was that character |
| `Strings.Lookup` | agent/core/job.go:461 | reading a Go string map yields the stored value, or "" for a missing key |
| `Strings.DecimalInjective` | agent/core/addr.go:10-12 | distinct plan ids print as distinct decimal strings |
| `Strings.ListsOnceMeans` | agent/core/job.go:294-321 | an order listing the registry once has no name twice and holds exactly the registered names |
| `Strings.ListsOnceAppend` | agent/core/job.go:202-205 | visiting one more, unvisited key extends a visit that lists each visited key once |
| `Addr.GenPlanDumpExecDir` | agent/core/addr.go:10-12 | a run's workspace lies under the work directory and is all digits after it |
| `Addr.GenSvcDumpExecDir` | agent/core/addr.go:14-16 | a service's dump directory is its run's workspace, then "/", then the service name |
| `Addr.GenSvcJarDir` | agent/core/addr.go:18-20 | the jar cache lies under "<work>/service/" and ends with exactly the service name |
| `Addr.GenSvcClassDir` | agent/core/addr.go:26-28 | the class tree lies under "<work>/class/" and ends with exactly the service name |
| `Addr.GenProjectClassDir` | agent/core/addr.go:30-32 | the project class tree is the class tree of the reserved name "_project_" |
| `Addr.PlanDirInjective` | agent/core/addr.go:10-12 | distinct runs never share a workspace |
| `Addr.SvcDumpDirInjective` | agent/core/addr.go:14-16 | two dump directories coincide only for the same run and the same service |
| `Addr.PlanDirIsNoCacheDir` | agent/core/addr.go:10-32 | a run workspace is never a jar cache, a service class tree or the project class tree |
| `Watcher.MarkedImageIsLastMarked` | agent/core/watcher.go:208-220 | the image picked is that of the last container carrying either marker, and "" when none does |
| `Watcher.PodsOf` | agent/core/watcher.go:234-242 | one error-free pod per listed pod, in order, with its IP, name and first container |
| `Watcher.GetServiceByDeploy` | agent/core/watcher.go:203-256 | nil when the Deployment is nil, unmarked or its pods cannot be listed; otherwise the service named by the "app" label with the marked image and the listed pods |
| `Watcher.JarPaths` | agent/core/watcher.go:353-362 | exactly the non-directory walked paths ending in ".jar", in visiting order |
| `Watcher.JarPathsAppend` | agent/core/watcher.go:353-362 | the walk's order is kept: a walk split in two lists the first part's jars, then the second's |
| `Watcher.GetServiceJarPackage` | agent/core/watcher.go:339-368 | panics exactly when the temp directory is made and the service has no pod; fails exactly when the temp directory or the copy out of the first pod fails; otherwise the list is exactly the jars of the first pod's walked copy, in walk order |
| `Watcher.GetPrefix` | agent/core/watcher.go:501-503 | every leading "/" is removed, and nothing else |
| `Watcher.TrimDotDotShape` | agent/core/watcher.go:481-487 | the trimming loop removes a run of whole "../" units and leaves a path not starting with "../" |
| `Watcher.StripSpecProperties` | agent/core/watcher.go:479-499 | the stripped path is a suffix of the cleaned one; it is never "." or ".." unless the trimmed path was "/." or "/.." (which path.Clean does not produce); it loses at most one "/" besides the "../" units |
| `Watcher.StripPathShortcuts` | agent/core/watcher.go:479-499 | the loop computes exactly the stripped path of the cleaned input |
| `Watcher.UnTarAll` | agent/core/watcher.go:417-477 | the extraction loop leaves exactly the filesystem and error of processing the entries in order up to the first failure |
| `Watcher.UntarStopsAt` | agent/core/watcher.go:419-430 | once an entry has failed, later entries change nothing |
| `Watcher.CorruptEntryAborts` | agent/core/watcher.go:428-430 | the first entry lacking the prefix aborts with "tar contents corrupted", keeping what earlier entries wrote |
| `Watcher.UntarWritesOnlyDestinations` | agent/core/watcher.go:432-473 | every key the extracted map gains or changes is Join(destDir, name without prefix) of an accepted entry, holding its directory, contents or unchanged link name |
| `Watcher.NoContainmentCheck` | agent/core/watcher.go:433 | an entry named prefix + "../x" is written to Join(destDir, "../x"): nothing confines extraction to destDir |
| `Jobs.NewJob` | agent/core/job.go:571-584 | a new run takes the plan's id, status, settings and filters, is live and unlocked, and is Running exactly when the status is running or ready |
| `Jobs.MergeArgsDecode` | agent/core/job.go:546-556 | the merge command line is "-jar", the CLI jar, "merge", the sources in order, then "--destfile" and the destination |
| `Jobs.ScanSkipsErroredPods` | agent/core/job.go:420-424 | pods flagged with an error are never dialled: their outcomes cannot change a dump scan |
| `Jobs.ScanAbortsIff` | agent/core/job.go:420-445 | the pod loop returns early exactly when some healthy pod's temp file or dump fails |
| `Jobs.ScanRecordsFailures` | agent/core/job.go:418-445 | a completed scan records a non-empty error for exactly the failed healthy pods and lists exactly the healthy pods' dumps |
| `Jobs.ScanStopsAt` | agent/core/job.go:433-443 | after the early return, the remaining pods change nothing |
| `Jobs.AbortLosesErrors` | agent/core/job.go:433-443 | a failing temp file or dump on one healthy pod discards the whole service's write-back, dial failures included |
| `Jobs.CollectMergesDumpedPods` | agent/core/job.go:444-450 | a worker's merge runs on exactly the healthy pods' fresh dumps |
| `Jobs.FailedPodIsSkippedNextCycle` | agent/core/job.go:460-465 | a pod that failed in one cycle is flagged, and the next cycle ignores it whatever its outcome |
| `Jobs.ExecPaths` | agent/core/job.go:506-511 | exactly the listed ".exec" names, as paths under the dump directory |
| `Jobs.MergeServiceOutcome` | agent/core/job.go:492-532 | a service is merged exactly when it is live and its listing and fresh artifact succeed, whatever the merge's own outcome; its artifact is the fresh file and its sources are ".exec" files of its own dump directory |
| `Jobs.DumpedService` | agent/core/job.go:389-466 | a dump cycle keeps a service's identity, jars and pod addresses, only appends to its error text, never clears a pod's error flag, and leaves deleted services alone |
| `Jobs.DumpedAll` | agent/core/job.go:383-470 | a dump cycle keeps the set of registered services |
| `Jobs.MergedService` | agent/core/job.go:519-530 | only a failed merge changes a service, and only by appending to its error text |
| `Jobs.MergedAll` | agent/core/job.go:487-542 | a merge pass keeps the set of registered services |
| `Jobs.MergedFiles` | agent/core/job.go:485-543 | the returned map has an entry for exactly the merged services |
| `Jobs.MergedSources` | agent/core/job.go:534-539 | files are deleted for exactly the merged services |
| `Jobs.DeletesOnlyOwnExecFiles` | agent/core/job.go:506-539 | every deleted file is a ".exec" file inside that service's own dump directory of that run |
| `Jobs.PodErrorTextEmptyIff` | agent/core/job.go:305-310 | the pod part is empty exactly when no pod has an error text |
| `Jobs.ServiceSectionEmptyIff` | agent/core/job.go:300-319 | a service contributes nothing exactly when neither it nor its pods have an error text |
| `Jobs.AllSectionsEmptyIff` | agent/core/job.go:293-321 | the services' part is empty exactly when no visited service contributes |
| `Jobs.RegistrySectionsEmptyIff` | agent/core/job.go:293-321 | over a visit of the whole registry, the services' part is empty exactly when no registered service or pod has an error text |
| `Jobs.Truncate` | agent/core/job.go:327-329 | the message is cut to its first 1500 bytes when longer and kept whole otherwise |
| `Jobs.QuietRunHasEmptyMessage` | agent/core/job.go:281-331 | a run with no error text anywhere sends an empty message |
| `Jobs.MessageEmptyIff` | agent/core/job.go:281-331 | the message for the whole registry is empty exactly when neither the run nor any registered service or pod has an error text |
| `Jobs.ClassSourceJarsMembers` | agent/core/job.go:335-350 | a jar is extracted exactly when some visited service without an error text lists it |
| `Jobs.RegistryJarsMembers` | agent/core/job.go:335-350 | over a visit of the whole registry, a jar is extracted exactly when some registered service without an error text lists it |
| `Jobs.RegistryJarsEmptyIff` | agent/core/job.go:335-354 | the jar list is empty exactly when no registered service without an error text has a jar |
| `Jobs.MergeExec` | agent/core/job.go:546-561 | the appends build the merge command line, and its error is the result |
| `Jobs.PodMessages` | agent/core/job.go:305-310 | the pod loop accumulates the pod part of the message |
| `Jobs.ServiceMessage` | agent/core/job.go:300-319 | the per-service body builds that service's section |
| `Jobs.DumpPods` | agent/core/job.go:418-445 | the pod loop computes the dump scan of all pods |
| `Jobs.ListExecFiles` | agent/core/job.go:506-511 | the listing loop computes the ".exec" paths |
| `Jobs.SteadyStateMerges` | agent/core/job.go:165-178 | loopTimes stays in 1..10, and the full merge runs on ticks 10, 20, 30, ... and on no other |
| `Core.LockedFailure` | agent/core/job.go:193-210 | every failure under the lock keeps it held; "not find svc exec dump file" exactly when no service has an artifact; no failure exactly when there are artifacts, the project file is made and the merge of the collected sources succeeds |
| `Core.CollectSources` | agent/core/job.go:202-205 | the sources hold each service's artifact once, in some order of the services |
| `Core.MergeProject` | agent/core/job.go:193-210 | the error is the locked failure of the artifacts and the sources collected, and those sources list every artifact once |
| `Core.PublishFailure` | agent/core/job.go:213-258 | no failure after the unlock holds the lock; success exactly when both archives are made and both callbacks accepted; an xml failure exactly when the xml archive is not made |
| `Core.PublishSent` | agent/core/job.go:213-258 | nothing is sent until the xml archive exists; then the success end callback with that archive, and the report callback with the html archive exactly when that exists; both carry the message |
| `Core.ReportOutcome` | agent/core/job.go:193-258 | a held-lock failure exactly when the locked part fails; success exactly when there are artifacts, the project merge succeeds and every later step succeeds |
| `Core.ReportSent` | agent/core/job.go:193-258 | a successful report sends the success end callback and then the report callback; a failure under the lock sends nothing |
| `Core.Reloaded` | agent/core/watcher.go:325-335 | a reload stores the jar list and keeps the error text, or keeps the list and sets "get svc <name> jar package error ..." |
| `Core.CancelAll` | agent/core/job.go:586-590 | every run is cancelled and none is added or removed |
| `Core.LoadFailure` | agent/core/job.go:352-370 | no failure exactly when there are jars and their extraction succeeds; no jar gives "all service not find jar path"; a failed extraction gives its error, or the end callback's when that fails too |
| `Core.LoadSent` | agent/core/job.go:358-366 | one fail end callback, sent exactly when extracting a non-empty jar list fails |
| `Core.ReadySent` | agent/core/callback.go:156-165 | one ready callback carrying the message, sent exactly when the coordinator does not already report the run ready |
| `Core.Registries.constructor` | agent/core/job.go:36 | both registries start empty, with no callback sent |
| `Core.Registries.GetJob` | agent/core/job.go:42-49 | a tracked plan's run, or the zero run with ok false |
| `Core.Registries.SetJob` | agent/core/job.go:38-40 | the run is stored under its plan id, and nothing else changes |
| `Core.Registries.DeleteJob` | agent/core/job.go:51-54 | the plan's run is removed, and nothing else |
| `Core.Registries.GetService` | agent/core/watcher.go:62-69 | a registered service, or the zero service with ok false |
| `Core.Registries.SetService` | agent/core/watcher.go:58-60 | the service is stored under the name, and nothing else changes |
| `Core.Registries.DeleteService` | agent/core/watcher.go:71-73 | deleting a service name from the run registry changes nothing |
| `Core.Registries.MarkServiceDeleted` | agent/core/watcher.go:532-539 | a registered service is flagged deleted and cancelled and stays registered; an unknown name changes nothing |
| `Core.Registries.ServiceDeletionWatchdog` | agent/core/watcher.go:267-281 | the purge goroutine changes no registry |
| `Core.Registries.ReloadJarAddr` | agent/core/watcher.go:314-348 | a discovery that reads the first pod of a pod-less service panics and stores nothing; otherwise the registered service gets the discovery's outcome, an unregistered one nothing, and the discovery's error is returned |
| `Core.Registries.SaveServices` | agent/core/watcher.go:258-312 | a new service is registered and reloaded now or in the background; a known one takes the new pods and image, with a background reload exactly when the image changed; the call panics exactly when the reload it runs or launches is on a pod-less service |
| `Core.Registries.CancelAllJobs` | agent/core/job.go:586-590 | the Range cancels every run |
| `Core.Registries.SaveJob` | agent/core/job.go:563-619 | a tracked plan only takes the new status; a new plan cancels every run, then on a successful settings write stores the settings, exports the filters and starts its own run, leaving at most one live run |
| `Core.Registries.CallbackEndWithMessage` | agent/core/job.go:264-279 | a tracked run is failed and cancelled and the failure is sent with the message; an unknown plan changes nothing |
| `Core.Registries.CallbackReady` | agent/core/callback.go:156-165 | nothing is sent for an unknown run or one the coordinator already reports ready; otherwise the ready callback is sent and its error returned |
| `Core.Registries.BuildCallbackErrorMessage` | agent/core/job.go:281-332 | "" for an unknown run; otherwise the run's part and every visited service's section, cut to 1500 bytes |
| `Core.Registries.LoadClassSources` | agent/core/job.go:334-371 | no jar gives "all service not find jar path"; a failed extraction sends a fail callback and returns the callback's error if any, else the extraction's |
| `Core.Registries.DumpWorker` | agent/core/job.go:389-450 | a worker computes the dump outcome of the service as registered, and nothing for a gone or deleted service |
| `Core.Registries.WriteBack` | agent/core/job.go:452-466 | the write-back lands on the live registered service and is dropped for a gone or deleted one |
| `Core.Registries.DumpExec` | agent/core/job.go:373-473 | blocked exactly on a held lock; a live, unlocked run dumps every service; otherwise nothing changes |
| `Core.Registries.DumpEach` | agent/core/job.go:383-470 | the workers leave every service as one dump cycle makes it |
| `Core.Registries.DumpOne` | agent/core/job.go:389-466 | one worker and its write-back give that service its dumped state and change no other |
| `Core.Registries.MergeServiceExec` | agent/core/job.go:492-539 | one service's merge step, applied to the registered service |
| `Core.Registries.MergeEachService` | agent/core/job.go:487-542 | the Range merges every service and returns each merged service's artifact and deleted files |
| `Core.Registries.MergeAllSvcExec` | agent/core/job.go:475-544 | blocked exactly on a held lock; a live, unlocked run merges every service; an unknown or cancelled run returns nothing and changes nothing |
| `Core.Registries.DumpAndMerge` | agent/core/job.go:190-191 | blocked exactly on a held lock; for a live run every service is left as one dump cycle and then one merge pass make it, and the artifacts returned are that merge pass's; a cancelled run changes nothing and returns none |
| `Core.Registries.Report` | agent/core/job.go:181-262 | only an ending run is reported, and it is blocked exactly on a held lock; a cancelled run fails with "not find svc exec dump file"; for a live run the services are dumped and merged, the error is the report outcome of the artifacts, the lock stays held exactly on a locked failure, and the callbacks sent are those of that outcome, carrying the run's message |
| `Core.Registries.MergeUnderLock` | agent/core/job.go:193-211 | the error is the locked failure over the sources collected, and the lock stays held exactly when it fails |
| `Core.Registries.MergeAndPublish` | agent/core/job.go:193-258 | the error is the report outcome, the lock stays held exactly on a locked failure, and the callbacks sent are those of that outcome |
| `Core.Registries.PublishReports` | agent/core/job.go:213-258 | the error is the first failure among the steps after the unlock, and the callbacks sent are those that steps reached, carrying the run's message |
| `Core.Registries.WatchdogTick` | agent/core/job.go:93-122 | the watchdog exits for an unknown run, removes a cancelled run and cancels a terminal one; an unlocked ending run is reported, and a failed report always ends it as failed with "report xml and html error " and the error; at most one run stays live |
| `Core.Registries.ReportOrEnd` | agent/core/job.go:114-119 | an unlocked ending run is reported; a failed report is followed by one fail end callback with "report xml and html error " and the error, leaving the run failed and cancelled |
| `Core.Registries.ReportEnding` | agent/core/job.go:115 | the watchdog's report of an unlocked ending run dumps and merges every service, fails with the report outcome, keeps the lock held exactly on a locked failure, sends that outcome's callbacks, and keeps at most one run live |
| `Core.Registries.EndFailedReport` | agent/core/job.go:116-118 | ending a run after a failed report fails and cancels it and sends one fail end callback with the report's error, keeping at most one run live |
| `Core.Registries.PrepareRun` | agent/core/job.go:142-156 | a failed extraction gives "loadClassSources error " and its error, after its fail callback; otherwise blocked exactly on a held lock, else every service is dumped once, the ready callback with the run's message is sent unless the coordinator already reports ready, and its failure gives "callback ready error " and the error |
| `Core.Registries.DumpAndReady` | agent/core/job.go:148-156 | blocked exactly on a held lock; otherwise every service is dumped once, then the ready callback carries the message built from the dumped services, and its failure gives "callback ready error " and the error |
| `Core.Registries.StartJob` | agent/core/job.go:125-163 | only a running run with a workspace starts; it reaches the steady loop as Ready exactly when extraction succeeds, the lock is free and the ready callback succeeds or is skipped; each failure ends the run as failed with its message, after the callbacks sent before it; at most one run stays live |
| `Core.Registries.RunToSteady` | agent/core/job.go:142-163 | from the extraction on, the run is ended as failed with the first failure's message, or marked Ready after one dump and the ready callback |
| `Converter.ServiceAccountName` | controllers/converter.go:45-47 | the ServiceAccount is named "source-cov-" + agent name + "-sa" |
| `Converter.RoleName` | controllers/converter.go:49-51 | the Role is named "source-cov-" + agent name + "-role" |
| `Converter.RoleBindingName` | controllers/converter.go:108 | the RoleBinding is named "source-cov-" + agent name + "-rb" |
| `Converter.Labels` | controllers/converter.go:53-57 | the one label "agents.<group>" maps to the agent name |
| `Converter.CompanionNamesDistinct` | controllers/converter.go:45-51 | the three names differ from each other, and each determines the agent name |
| `Converter.ConvertServiceAccount` | controllers/converter.go:59-68 | the ServiceAccount has the account name, the agent's namespace and no labels |
| `Converter.ConvertRole` | controllers/converter.go:70-103 | the Role has the role name, namespace and labels, and grants read on deployments, statefulsets and pods and create on pods/exec |
| `Converter.ConvertRoleBinding` | controllers/converter.go:105-127 | the binding refers to the generated Role and binds only the generated ServiceAccount |
| `Converter.NewContainers` | controllers/converter.go:195-223 | exactly one "sourcecov-agent" container with the image, the env names and values in order without valueFrom, the resources, IfNotPresent and one "data" mount at the volume path |
| `Converter.ConvertSts` | controllers/converter.go:131-182 | the StatefulSet is named after the agent, has one replica, the labels as selector and template labels, runs as the generated account, and has one "data" claim of the storage class and size |
| `Converter.ConvertAgent` | controllers/converter.go:186-193 | the binding grants the generated Role to the account the pods run as; all four objects share namespace, labels and owner; the selector matches the template; the container mounts the only claim |
| `Converter.FillDefaultValue` | controllers/converter.go:225-246 | an empty volume path becomes "/jacoco/work" and missing resources become 2 CPU / 4Gi; everything else is kept |
| `Converter.FillDefaultValueIdempotent` | controllers/converter.go:225-246 | defaulting twice is defaulting once |
| `Converter.DefaultedAgentConverts` | controllers/converter.go:218 | a defaulted agent can be converted, and its container mounts a non-empty path |

## Left out

- Core.MergeProject: states the project merge's sources only as some order of the artifacts, because `report` collects them in Go map order (agent/core/job.go:202-205), which is arbitrary.
- Core.Registries.SaveJob: a failed settings write leaves the modelled settings unchanged. After the truncating open succeeds, a failed write would actually leave the file empty.
- Core.Registries.CallbackReady and the other callbacks: `retry.RetryOnConflict` is a single attempt. The HTTP client, JSON bodies, status polling and uploads of agent/core/callback.go are not modelled; a callback is recorded in `outbox` and its outcome is an input.
- Core.Registries.SaveServices: the background reload is not run. It is reported as `asyncReload`, with the panic it would hit as `panicked`.
- Concurrency: goroutines, the semaphore of 5 dump workers, and `sync.Map` atomicity are not modelled. Workers run one after another, in an arbitrary order. Waiting on a held `DumpLock` is `blocked`.
- Time: the sleeps, the 30-second watchdog cadence and the 5-minute dump ticks are not modelled. The steady loop is its counter (`Jobs.SteadyStateMerges`).
- Deleting a cancelled run's workspace (`rm -rf`) is not modelled; only the run's removal is.
- Pointer aliasing: the registries hold pointers in the source. The model stores values and writes each update back explicitly, at the point where the source's pointer write happens.
- Kubernetes I/O: the informers and watch handlers of `WatchJacocoPod`, `setK8sClientSet`, the SPDY exec in `copyFromPod`, and the pod listing are left out. The pod list, and the walked copy of "/app", are inputs. `unTarImage` is unused and left out.
- Watcher.UnTarAll: paths are not resolved. A file or directory beneath a symlink made by an earlier entry is recorded under its joined name, whereas `os.MkdirAll` and `os.Create` follow the link and can write outside the destination (agent/core/watcher.go:436-462).
- Watcher.UnTarAll: a failing entry is modelled as writing nothing. In the code, `os.MkdirAll` may already have made parent directories, and `os.Create` has already made or truncated the file before a failed `io.Copy` or `Close`, so an empty or partial file stays behind (agent/core/watcher.go:436-472).
- Watcher.UnTarAll: each entry's I/O failure is an input chosen per entry, not derived from the filesystem built so far. So a symlink or directory written over an existing path may succeed, where `os.Symlink` would fail.
- `path.Clean`, `filepath.Join`, `filepath.Walk` and `filepath.EvalSymlinks` are parameters. The parent-directory creation in `unTarAll` is folded into each entry's I/O outcome.
- File contents: the dump, merge and report files are names only. JaCoCo's data format is not modelled.
- The timestamp in the HTML archive name is an input.
- Logging is not modelled.
- Integer widths: plan ids are unbounded naturals, where the source uses `uint64`. The model has no arithmetic on them that could wrap.
- Converter: `resource.Quantity` values are kept as their text. Affinity, tolerations and `valueFrom` are opaque. `SetOwnerRef` is modelled as attaching one controller reference to each object.
- Converter: api/v1alpha1/groupversion_info.go is not part of this model. The API group is the parameter `group`.
- The reconcile loop of controllers/agent_controller.go and the entry point agent/cmd/main.go are not modelled.
