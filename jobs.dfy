/** The value-level part of agent/core/job.go: the run record, run statuses
    (agent/core/status.go), and the specifications of the bookkeeping that the
    registry operations in module Core perform: the per-pod dump scan of `dumpExec`,
    its write-back, the per-service step of `mergeAllSvcExec`, the `mergeExec`
    argument vector, the jar list of `loadClassSources` and the message of
    `buildCallbackErrorMessage`. */
module Jobs {
  import opened Wrappers
  import opened Strings
  import opened Addr
  import opened Watcher

  // ---------------------------------------------------------------------------
  // status.go and conf.go

  /** Statuses the coordinator reports (CodeCoverageExecStatus). */
  const RunningStatus: string := "running"
  const ReadyStatus: string := "ready"
  const EndingStatus: string := "ending"
  const CancelStatus: string := "cancel"
  const SuccessStatus: string := "success"
  const FailStatus: string := "fail"

  /** The agent's own phase of a run (DetectionJob.JobStatus). */
  const Running: string := "running"
  const Ready: string := "ready"
  const Success: string := "success"
  const Fail: string := "fail"
  const Error: string := "error"

  const JacocoCliAddr: string := "/app/jacococli.jar"
  const ExtractCliAddr: string := "/app/extract-jar.sh"

  /** Longest message sent to the coordinator, in bytes. */
  const MaxMessage: nat := 1500

  /** DetectionJob.  `cancelled` is its context having been cancelled and `dumpLocked`
      its DumpLock being held. */
  datatype Job = Job(
    planId: nat,
    status: string,
    jobStatus: string,
    mavenSettings: string,
    includes: string,
    excludes: string,
    errorMsg: string,
    cancelled: bool,
    dumpLocked: bool)

  /** What GetJob returns for a missing plan: `&DetectionJob{}`. */
  const ZeroJob: Job := Job(0, "", "", "", "", "", "", false, false)

  /** CodeCoverageExecRecordDetail as the status call returns it. */
  datatype Detail = Detail(planId: nat, projectId: nat, status: string, mavenSetting: string, includes: string, excludes: string)

  /** The run saveJob registers for a plan it does not track yet. */
  function NewJob(d: Detail): (j: Job)
    ensures j.planId == d.planId && j.status == d.status && !j.cancelled && !j.dumpLocked
    ensures j.jobStatus == Running <==> d.status == RunningStatus || d.status == ReadyStatus
    ensures j.jobStatus != Running ==> j.jobStatus == ""
    ensures j.mavenSettings == d.mavenSetting && j.includes == d.includes && j.excludes == d.excludes
    ensures j.errorMsg == ""
  {
    Job(d.planId, d.status, if d.status == RunningStatus || d.status == ReadyStatus then Running else "",
        d.mavenSetting, d.includes, d.excludes, "", false, false)
  }

  predicate IsTerminal(status: string) {
    status == FailStatus || status == SuccessStatus || status == CancelStatus
  }

  /** The coordinator calls the agent makes (callback.go): recorded as sent. */
  datatype Callback =
    | EndCallback(planId: nat, msg: string, status: string, reportXml: string)
    | ReadyCallback(planId: nat, msg: string)
    | ReportCallback(planId: nat, status: string, msg: string, reportTar: string)

  // ---------------------------------------------------------------------------
  // mergeExec

  /** The argument vector `java` is run with to merge `files` into `destFile`. */
  function MergeArgs(destFile: string, files: seq<string>): seq<string> {
    ["-jar", JacocoCliAddr, "merge"] + files + ["--destfile", destFile]
  }

  /** The merge command names its sources and its destination unambiguously. */
  lemma MergeArgsDecode(destFile: string, files: seq<string>)
    ensures var args := MergeArgs(destFile, files);
      |args| == |files| + 5 && args[3..|args| - 2] == files && args[|args| - 1] == destFile
      && args[..3] == ["-jar", JacocoCliAddr, "merge"] && args[|args| - 2] == "--destfile"
  {
  }

  // ---------------------------------------------------------------------------
  // dumpExec, one service

  /** What happens to one healthy pod in a dump cycle: the 5s dial fails, the temp file
      cannot be created, `java … dump` fails, or the dump lands in `file`. */
  datatype PodOutcome = DialFailed(err: string) | TempFailed(err: string) | DumpFailed(err: string) | Dumped(file: string)

  /** The external actions of one service's worker: whether its dump directory exists or
      `mkdir -p` made it, the fresh service artifact (os.CreateTemp), each pod's outcome
      by index, and the error `java` reports for a given merge argument vector. */
  datatype SvcDumpEnv = SvcDumpEnv(
    dirReady: bool,
    svcExec: Result<string>,
    pod: nat -> PodOutcome,
    merge: seq<string> -> Option<string>)

  /** The pod loop's variables: podExecList, podErrorMap, and whether it returned early. */
  datatype PodScan = PodScan(execs: seq<string>, errors: map<string, string>, aborted: bool)

  function DialMessage(svc: string, addr: string, err: string): string {
    "svc " + svc + " container " + addr + " fail to dial error " + err
  }

  function TempMessage(svc: string, addr: string, err: string): string {
    "svc " + svc + " container " + addr + " fail to create temp file error " + err
  }

  function DumpMessage(svc: string, addr: string, err: string): string {
    "svc " + svc + " container " + addr + " dump exec error " + err
  }

  predicate Failed(o: PodOutcome) {
    !o.Dumped?
  }

  predicate Aborts(o: PodOutcome) {
    o.TempFailed? || o.DumpFailed?
  }

  function FailureMessage(svc: string, addr: string, o: PodOutcome): string
    requires Failed(o)
  {
    match o
    case DialFailed(e) => DialMessage(svc, addr, e)
    case TempFailed(e) => TempMessage(svc, addr, e)
    case DumpFailed(e) => DumpMessage(svc, addr, e)
  }

  /** One iteration of the pod loop. */
  function ScanStep(svc: string, s: PodScan, p: Pod, o: PodOutcome): PodScan {
    if p.hasError then s
    else if o.Dumped? then s.(execs := s.execs + [o.file])
    else s.(errors := s.errors[p.addr := FailureMessage(svc, p.addr, o)], aborted := Aborts(o))
  }

  /** The pod loop over the first `n` pods; it stops at the first aborting pod. */
  function ScanPods(svc: string, pods: seq<Pod>, outcome: nat -> PodOutcome, n: nat): PodScan
    requires n <= |pods|
  {
    if n == 0 then PodScan([], map[], false)
    else
      var s := ScanPods(svc, pods, outcome, n - 1);
      if s.aborted then s else ScanStep(svc, s, pods[n - 1], outcome(n - 1))
  }

  /** Sticky errors: a pod flagged HasError is never dialled, so what the environment would
      have done with it cannot change the scan. */
  lemma {:induction false} ScanSkipsErroredPods(svc: string, pods: seq<Pod>, o1: nat -> PodOutcome, o2: nat -> PodOutcome, n: nat)
    requires n <= |pods|
    requires forall i :: 0 <= i < n && !pods[i].hasError ==> o1(i) == o2(i)
    ensures ScanPods(svc, pods, o1, n) == ScanPods(svc, pods, o2, n)
  {
    if n > 0 {
      ScanSkipsErroredPods(svc, pods, o1, o2, n - 1);
    }
  }

  /** The scan returns early exactly when some healthy pod's temp file or dump fails. */
  lemma {:induction false} ScanAbortsIff(svc: string, pods: seq<Pod>, o: nat -> PodOutcome, n: nat)
    requires n <= |pods|
    ensures ScanPods(svc, pods, o, n).aborted <==> exists i :: 0 <= i < n && !pods[i].hasError && Aborts(o(i))
  {
    if n > 0 {
      ScanAbortsIff(svc, pods, o, n - 1);
    }
  }

  /** When the scan runs to the end, the error map has an entry for exactly the addresses of
      healthy pods that failed, and the artifact list holds exactly the healthy pods' dumps. */
  lemma {:induction false} ScanRecordsFailures(svc: string, pods: seq<Pod>, o: nat -> PodOutcome, n: nat)
    requires n <= |pods|
    requires !ScanPods(svc, pods, o, n).aborted
    ensures forall a :: a in ScanPods(svc, pods, o, n).errors <==>
      exists i :: 0 <= i < n && !pods[i].hasError && Failed(o(i)) && pods[i].addr == a
    ensures forall a :: a in ScanPods(svc, pods, o, n).errors ==> ScanPods(svc, pods, o, n).errors[a] != ""
    ensures forall f :: f in ScanPods(svc, pods, o, n).execs <==>
      exists i :: 0 <= i < n && !pods[i].hasError && o(i) == Dumped(f)
  {
    if n > 0 {
      ScanRecordsFailures(svc, pods, o, n - 1);
    }
  }

  /** What a worker hands to the write-back: its service-level error text and podErrorMap. */
  datatype DumpResult = DumpResult(svcError: string, podErrors: map<string, string>)

  /** A worker's result, or None when it returns before the write-back (the dump directory
      or the service artifact could not be created, or a pod's temp file or dump failed). */
  function CollectDump(svc: Service, env: SvcDumpEnv): Option<DumpResult> {
    if !env.dirReady || env.svcExec.Err? then None
    else
      var scan := ScanPods(svc.name, svc.pods, env.pod, |svc.pods|);
      if scan.aborted then None
      else
        var err := env.merge(MergeArgs(env.svcExec.value, scan.execs));
        Some(DumpResult(if err.Some? then "merge pod exec error " + err.value else "", scan.errors))
  }

  /** The early return loses everything: a pod whose temp file or dump fails leaves the
      service with no write-back at all, even for pods whose dial failed before it. */
  lemma AbortLosesErrors(svc: Service, env: SvcDumpEnv, k: nat)
    requires k < |svc.pods| && !svc.pods[k].hasError && Aborts(env.pod(k))
    ensures CollectDump(svc, env).None?
  {
    ScanAbortsIff(svc.name, svc.pods, env.pod, |svc.pods|);
  }

  /** The service's merge is run on exactly the healthy pods' fresh dumps. */
  lemma CollectMergesDumpedPods(svc: Service, env: SvcDumpEnv)
    requires CollectDump(svc, env).Some?
    ensures var scan := ScanPods(svc.name, svc.pods, env.pod, |svc.pods|);
      forall f :: f in scan.execs <==> exists i :: 0 <= i < |svc.pods| && !svc.pods[i].hasError && env.pod(i) == Dumped(f)
  {
    ScanRecordsFailures(svc.name, svc.pods, env.pod, |svc.pods|);
  }

  /** The write-back of one pod: it takes the map's message when there is one. */
  function MarkPod(p: Pod, errors: map<string, string>): Pod {
    var e := Lookup(errors, p.addr);
    if e != "" then p.(errorMsg := e, hasError := true) else p
  }

  /** The write-back onto the registry's copy of the service. */
  function WrittenBack(svc: Service, r: DumpResult): Service {
    svc.(errorMessage := svc.errorMessage + r.svcError,
         pods := seq(|svc.pods|, i requires 0 <= i < |svc.pods| => MarkPod(svc.pods[i], r.podErrors)))
  }

  /** A pod whose dial failed in one cycle is flagged, and the next cycle ignores it. */
  lemma {:induction false} FailedPodIsSkippedNextCycle(svc: Service, env: SvcDumpEnv, next: SvcDumpEnv, alt: nat -> PodOutcome, k: nat)
    requires k < |svc.pods| && !svc.pods[k].hasError && Failed(env.pod(k))
    requires CollectDump(svc, env).Some?
    requires forall i :: 0 <= i < |svc.pods| && i != k ==> alt(i) == next.pod(i)
    ensures WrittenBack(svc, CollectDump(svc, env).value).pods[k].hasError
    ensures var svc' := WrittenBack(svc, CollectDump(svc, env).value);
      ScanPods(svc'.name, svc'.pods, next.pod, |svc'.pods|) == ScanPods(svc'.name, svc'.pods, alt, |svc'.pods|)
  {
    var scan := ScanPods(svc.name, svc.pods, env.pod, |svc.pods|);
    ScanRecordsFailures(svc.name, svc.pods, env.pod, |svc.pods|);
    assert svc.pods[k].addr in scan.errors;
    var svc' := WrittenBack(svc, CollectDump(svc, env).value);
    assert svc'.pods[k] == MarkPod(svc.pods[k], scan.errors);
    ScanSkipsErroredPods(svc'.name, svc'.pods, next.pod, alt, |svc'.pods|);
  }

  // ---------------------------------------------------------------------------
  // mergeAllSvcExec, one service

  /** The external actions for one service in mergeAllSvcExec: the listing of its dump
      directory, the fresh service artifact, and the merge's error per argument vector. */
  datatype SvcMergeEnv = SvcMergeEnv(listing: Result<seq<string>>, svcExec: Result<string>, merge: seq<string> -> Option<string>)

  /** The path of the listed file `name` under `dir`. */
  function ExecPath(dir: string, name: string): (p: string)
    requires HasSuffix(name, ".exec")
    ensures HasPrefix(p, dir + "/") && HasSuffix(p, ".exec")
  {
    var p := dir + "/" + name;
    assert p[..|dir + "/"|] == dir + "/";
    assert p[|p| - 5..] == name[|name| - 5..];
    p
  }

  /** The listed ".exec" files, as paths under `dir`. */
  function ExecPaths(dir: string, names: seq<string>): (r: seq<string>)
    ensures |r| <= |names|
    ensures forall k :: 0 <= k < |r| ==> HasPrefix(r[k], dir + "/") && HasSuffix(r[k], ".exec")
    ensures forall i :: 0 <= i < |names| && HasSuffix(names[i], ".exec") ==> dir + "/" + names[i] in r
    ensures forall k :: 0 <= k < |r| ==> exists i :: 0 <= i < |names| && HasSuffix(names[i], ".exec") && r[k] == dir + "/" + names[i]
  {
    if |names| == 0 then []
    else
      var init := ExecPaths(dir, names[..|names| - 1]);
      var last := names[|names| - 1];
      assert forall i :: 0 <= i < |names| - 1 ==> names[..|names| - 1][i] == names[i];
      if HasSuffix(last, ".exec") then init + [ExecPath(dir, last)] else init
  }

  /** Listing one more name extends the paths by that name's, if it is an ".exec" file. */
  lemma ExecPathsStep(dir: string, names: seq<string>, i: nat)
    requires i < |names|
    ensures ExecPaths(dir, names[..i + 1])
            == ExecPaths(dir, names[..i]) + if HasSuffix(names[i], ".exec") then [ExecPath(dir, names[i])] else []
  {
    var listed := names[..i + 1];
    assert listed[..|listed| - 1] == names[..i] && listed[|listed| - 1] == names[i];
  }

  /** The outcome of one service in mergeAllSvcExec: skipped, or merged into `file` from
      `sources` (deleted afterwards) with the merge's error, if any. */
  datatype SvcMerge = Skipped | Merged(file: string, sources: seq<string>, error: Option<string>)

  function MergeService(planId: nat, svc: Service, env: SvcMergeEnv): SvcMerge {
    if svc.isDelete || env.listing.Err? || env.svcExec.Err? then Skipped
    else
      var sources := ExecPaths(GenSvcDumpExecDir(planId, svc.name), env.listing.value);
      Merged(env.svcExec.value, sources, env.merge(MergeArgs(env.svcExec.value, sources)))
  }

  /** The service after its merge: a failed merge appends to its error text. */
  function AfterMerge(svc: Service, m: SvcMerge): Service {
    if m.Merged? && m.error.Some? then svc.(errorMessage := svc.errorMessage + "merge pod exec error " + m.error.value)
    else svc
  }

  /** Deleted services are skipped; a processed service is recorded even when its merge
      failed, and its sources are exactly its listed ".exec" files. */
  lemma MergeServiceOutcome(planId: nat, svc: Service, env: SvcMergeEnv)
    ensures MergeService(planId, svc, env).Merged? <==> !svc.isDelete && env.listing.Ok? && env.svcExec.Ok?
    ensures MergeService(planId, svc, env).Merged? ==>
      var m := MergeService(planId, svc, env);
      m.file == env.svcExec.value
      && (forall k :: 0 <= k < |m.sources| ==>
            (HasPrefix(m.sources[k], GenSvcDumpExecDir(planId, svc.name) + "/") && HasSuffix(m.sources[k], ".exec")))
  {
  }

  // ---------------------------------------------------------------------------
  // Whole-registry passes: what dumpExec and mergeAllSvcExec leave in the registry

  /** A service after one dumpExec cycle: deleted services and workers that return early
      leave it as it was.  Error texts only grow and error flags are never cleared. */
  function DumpedService(svc: Service, env: SvcDumpEnv): (r: Service)
    ensures r.name == svc.name && r.image == svc.image && r.jarAddrList == svc.jarAddrList && r.isDelete == svc.isDelete
    ensures |r.pods| == |svc.pods| && HasPrefix(r.errorMessage, svc.errorMessage)
    ensures forall i :: 0 <= i < |svc.pods| ==> r.pods[i].addr == svc.pods[i].addr
    ensures forall i :: 0 <= i < |svc.pods| && svc.pods[i].hasError ==> r.pods[i].hasError
    ensures svc.isDelete ==> r == svc
  {
    if svc.isDelete then svc
    else match CollectDump(svc, env)
      case None => svc
      case Some(res) => WrittenBack(svc, res)
  }

  function DumpedAll(services: map<string, Service>, env: string -> SvcDumpEnv): (r: map<string, Service>)
    ensures r.Keys == services.Keys
  {
    map k | k in services :: DumpedService(services[k], env(k))
  }

  /** A service after mergeAllSvcExec: only a failed merge changes it, by appending to
      its error text. */
  function MergedService(planId: nat, svc: Service, env: SvcMergeEnv): (r: Service)
    ensures r.name == svc.name && r.pods == svc.pods && r.jarAddrList == svc.jarAddrList && r.isDelete == svc.isDelete
    ensures HasPrefix(r.errorMessage, svc.errorMessage)
    ensures r != svc ==> MergeService(planId, svc, env).Merged? && MergeService(planId, svc, env).error.Some?
  {
    AfterMerge(svc, MergeService(planId, svc, env))
  }

  function MergedAll(planId: nat, services: map<string, Service>, env: string -> SvcMergeEnv): (r: map<string, Service>)
    ensures r.Keys == services.Keys
  {
    map k | k in services :: MergedService(planId, services[k], env(k))
  }

  /** The map mergeAllSvcExec returns: each merged service's fresh artifact. */
  function MergedFiles(planId: nat, services: map<string, Service>, env: string -> SvcMergeEnv): (r: map<string, string>)
    ensures forall k :: k in r <==> k in services && MergeService(planId, services[k], env(k)).Merged?
  {
    map k | k in services && MergeService(planId, services[k], env(k)).Merged? :: MergeService(planId, services[k], env(k)).file
  }

  /** The files mergeAllSvcExec deletes, by service: each merged service's sources. */
  function MergedSources(planId: nat, services: map<string, Service>, env: string -> SvcMergeEnv): (r: map<string, seq<string>>)
    ensures r.Keys == MergedFiles(planId, services, env).Keys
  {
    map k | k in services && MergeService(planId, services[k], env(k)).Merged? :: MergeService(planId, services[k], env(k)).sources
  }

  /** Adding one service to those already merged adds its artifact, if it has one. */
  lemma MergedFilesStep(planId: nat, done: map<string, Service>, key: string, svc: Service, env: string -> SvcMergeEnv)
    requires key !in done
    ensures var m := MergeService(planId, svc, env(key));
      MergedFiles(planId, done[key := svc], env)
      == if m.Merged? then MergedFiles(planId, done, env)[key := m.file] else MergedFiles(planId, done, env)
  {
  }

  lemma MergedSourcesStep(planId: nat, done: map<string, Service>, key: string, svc: Service, env: string -> SvcMergeEnv)
    requires key !in done
    ensures var m := MergeService(planId, svc, env(key));
      MergedSources(planId, done[key := svc], env)
      == if m.Merged? then MergedSources(planId, done, env)[key := m.sources] else MergedSources(planId, done, env)
  {
  }

  /** Only ".exec" files in the service's own dump directory are ever deleted. */
  lemma DeletesOnlyOwnExecFiles(planId: nat, services: map<string, Service>, env: string -> SvcMergeEnv, k: string, j: nat)
    requires k in MergedSources(planId, services, env) && j < |MergedSources(planId, services, env)[k]|
    ensures var f := MergedSources(planId, services, env)[k][j];
      HasSuffix(f, ".exec") && HasPrefix(f, GenSvcDumpExecDir(planId, services[k].name) + "/")
  {
    var m := MergeService(planId, services[k], env(k));
    assert m.Merged? && MergedSources(planId, services, env)[k] == m.sources;
  }

  // ---------------------------------------------------------------------------
  // buildCallbackErrorMessage

  /** The pods' messages, one per line. */
  function PodErrorText(pods: seq<Pod>): string {
    if |pods| == 0 then ""
    else PodErrorText(pods[..|pods| - 1])
         + (if pods[|pods| - 1].errorMsg != "" then pods[|pods| - 1].errorMsg + "\n" else "")
  }

  lemma {:induction false} PodErrorTextEmptyIff(pods: seq<Pod>)
    ensures PodErrorText(pods) == "" <==> forall i :: 0 <= i < |pods| ==> pods[i].errorMsg == ""
  {
    if |pods| > 0 {
      var init := pods[..|pods| - 1];
      PodErrorTextEmptyIff(init);
      assert forall i :: 0 <= i < |init| ==> init[i] == pods[i];
    }
  }

  /** A service's contribution: its own error text and its pods' texts, each part under
      a heading naming the service and present only when non-empty. */
  function ServiceSection(svc: Service): string {
    var own := if svc.errorMessage != "" then svc.errorMessage + "\n" else "";
    var pods := PodErrorText(svc.pods);
    (if own != "" then "svc " + svc.name + " error message \n" + own else "")
    + (if pods != "" then "svc " + svc.name + " pod error message \n" + pods else "")
  }

  /** A service contributes a section exactly when it or one of its pods has an error text. */
  lemma ServiceSectionEmptyIff(svc: Service)
    ensures ServiceSection(svc) == "" <==>
      svc.errorMessage == "" && forall i :: 0 <= i < |svc.pods| ==> svc.pods[i].errorMsg == ""
  {
    PodErrorTextEmptyIff(svc.pods);
  }

  /** The sections of the services visited, in `order` (the iteration order of Range). */
  function AllSections(services: map<string, Service>, order: seq<string>): string {
    if |order| == 0 then ""
    else AllSections(services, order[..|order| - 1])
         + (if order[|order| - 1] in services then ServiceSection(services[order[|order| - 1]]) else "")
  }

  lemma {:induction false} AllSectionsEmptyIff(services: map<string, Service>, order: seq<string>)
    ensures AllSections(services, order) == "" <==>
      forall k :: 0 <= k < |order| && order[k] in services ==> ServiceSection(services[order[k]]) == ""
  {
    if |order| > 0 {
      AllSectionsEmptyIff(services, order[..|order| - 1]);
    }
  }

  /** A service and its pods carry no error text. */
  predicate Quiet(svc: Service) {
    svc.errorMessage == "" && forall i :: 0 <= i < |svc.pods| ==> svc.pods[i].errorMsg == ""
  }

  /** Over a Range visit of the whole registry, the services' part of the message is empty
      exactly when every service is quiet. */
  lemma RegistrySectionsEmptyIff(services: map<string, Service>, order: seq<string>)
    requires ListsOnce(order, services.Keys)
    ensures AllSections(services, order) == "" <==> forall k :: k in services ==> Quiet(services[k])
  {
    ListsOnceMeans(order, services.Keys);
    AllSectionsEmptyIff(services, order);
    forall k | k in services
      ensures ServiceSection(services[k]) == "" <==> Quiet(services[k])
    {
      ServiceSectionEmptyIff(services[k]);
    }
    if AllSections(services, order) == "" {
      forall k | k in services
        ensures Quiet(services[k])
      {
        var i :| 0 <= i < |order| && order[i] == k;
      }
    }
  }

  /** The run's own part, exactly as the source writes it: the text, a label, the text again. */
  function JobSection(job: Job): string {
    if job.errorMsg != "" then job.errorMsg + "job error message: \n" + job.errorMsg + "\n" else ""
  }

  /** The whole message before truncation. */
  function FullMessage(job: Job, services: map<string, Service>, order: seq<string>): string {
    var all := AllSections(services, order);
    JobSection(job) + (if all != "" then all + "\n" else "")
  }

  function Truncate(s: string, n: nat): (r: string)
    ensures |r| <= n && |r| <= |s| && r == s[..|r|]
    ensures |s| > n ==> |r| == n
    ensures |s| <= n ==> r == s
  {
    if |s| > n then s[..n] else s
  }

  /** A run with no error text whose services and pods carry none sends an empty message. */
  lemma {:induction false} QuietRunHasEmptyMessage(job: Job, services: map<string, Service>, order: seq<string>)
    requires job.errorMsg == ""
    requires forall k :: k in services ==> services[k].errorMessage == ""
    requires forall k, i :: k in services && 0 <= i < |services[k].pods| ==> services[k].pods[i].errorMsg == ""
    ensures Truncate(FullMessage(job, services, order), MaxMessage) == ""
  {
    forall k | 0 <= k < |order| && order[k] in services
      ensures ServiceSection(services[order[k]]) == ""
    {
      ServiceSectionEmptyIff(services[order[k]]);
    }
    AllSectionsEmptyIff(services, order);
  }

  /** Over a Range visit of the whole registry, the message is empty exactly when the run
      has no error text and every service is quiet. */
  lemma MessageEmptyIff(job: Job, services: map<string, Service>, order: seq<string>)
    requires ListsOnce(order, services.Keys)
    ensures Truncate(FullMessage(job, services, order), MaxMessage) == "" <==>
      job.errorMsg == "" && forall k :: k in services ==> Quiet(services[k])
  {
    RegistrySectionsEmptyIff(services, order);
    var full := FullMessage(job, services, order);
    if Truncate(full, MaxMessage) == "" {
      assert full == "";
      assert |JobSection(job)| <= |full|;
    }
  }

  // ---------------------------------------------------------------------------
  // loadClassSources

  /** The jar paths of the services visited in `order` that carry no error text. */
  function ClassSourceJars(services: map<string, Service>, order: seq<string>): seq<string> {
    if |order| == 0 then []
    else
      var k := order[|order| - 1];
      ClassSourceJars(services, order[..|order| - 1])
      + (if k in services && services[k].errorMessage == "" then services[k].jarAddrList else [])
  }

  /** A jar is loaded exactly when some error-free service visited lists it. */
  lemma {:induction false} ClassSourceJarsMembers(services: map<string, Service>, order: seq<string>, jar: string)
    ensures jar in ClassSourceJars(services, order) <==>
      exists k :: 0 <= k < |order| && order[k] in services && services[order[k]].errorMessage == ""
                  && jar in services[order[k]].jarAddrList
  {
    if |order| > 0 {
      ClassSourceJarsMembers(services, order[..|order| - 1], jar);
    }
  }

  /** Over a Range visit of the whole registry, a jar is loaded exactly when some
      error-free service lists it. */
  lemma RegistryJarsMembers(services: map<string, Service>, order: seq<string>, jar: string)
    requires ListsOnce(order, services.Keys)
    ensures jar in ClassSourceJars(services, order) <==>
      exists k :: k in services && services[k].errorMessage == "" && jar in services[k].jarAddrList
  {
    ListsOnceMeans(order, services.Keys);
    ClassSourceJarsMembers(services, order, jar);
    if exists k :: k in services && services[k].errorMessage == "" && jar in services[k].jarAddrList {
      var k :| k in services && services[k].errorMessage == "" && jar in services[k].jarAddrList;
      var i :| 0 <= i < |order| && order[i] == k;
    }
  }

  /** Over a Range visit of the whole registry, nothing is loaded exactly when every
      error-free service lists no jar. */
  lemma RegistryJarsEmptyIff(services: map<string, Service>, order: seq<string>)
    requires ListsOnce(order, services.Keys)
    ensures |ClassSourceJars(services, order)| == 0 <==>
      forall k :: k in services && services[k].errorMessage == "" ==> |services[k].jarAddrList| == 0
  {
    var jars := ClassSourceJars(services, order);
    if |jars| > 0 {
      RegistryJarsMembers(services, order, jars[0]);
    }
    if exists k :: k in services && services[k].errorMessage == "" && |services[k].jarAddrList| > 0 {
      var k :| k in services && services[k].errorMessage == "" && |services[k].jarAddrList| > 0;
      RegistryJarsMembers(services, order, services[k].jarAddrList[0]);
    }
  }

  /** The shell command that extracts classes and sources of `jars` into the project tree. */
  function ExtractCommand(jars: seq<string>): string {
    "bash " + ExtractCliAddr + " " + Join(jars, ",") + " " + GenProjectClassDir()
  }

  // ---------------------------------------------------------------------------
  // The loops of job.go that only compute values

  /** mergeExec: build the argument vector by appends and run `java` (`java` gives the
      error, if any, of running it with a given argument vector). */
  method MergeExec(destFile: string, files: seq<string>, java: seq<string> -> Option<string>) returns (err: Option<string>)
    ensures err == java(MergeArgs(destFile, files))
  {
    var args: seq<string> := [];
    args := args + ["-jar"];
    args := args + [JacocoCliAddr];
    args := args + ["merge"];
    var i := 0;
    while i < |files|
      invariant 0 <= i <= |files|
      invariant args == ["-jar", JacocoCliAddr, "merge"] + files[..i]
    {
      args := args + [files[i]];
      i := i + 1;
    }
    args := args + ["--destfile"];
    args := args + [destFile];
    assert files[..i] == files;
    assert args == ["-jar", JacocoCliAddr, "merge"] + files + ["--destfile"] + [destFile];
    assert args == MergeArgs(destFile, files);
    err := java(args);
  }

  /** The pod loop of buildCallbackErrorMessage: each pod's message on its own line. */
  method PodMessages(pods: seq<Pod>) returns (podErrorMessage: string)
    ensures podErrorMessage == PodErrorText(pods)
  {
    podErrorMessage := "";
    var j := 0;
    while j < |pods|
      invariant 0 <= j <= |pods|
      invariant podErrorMessage == PodErrorText(pods[..j])
    {
      if pods[j].errorMsg != "" {
        podErrorMessage := podErrorMessage + pods[j].errorMsg + "\n";
      }
      assert pods[..j + 1][..j] == pods[..j];
      j := j + 1;
    }
    assert pods[..j] == pods;
  }

  /** One service's part of buildCallbackErrorMessage. */
  method ServiceMessage(svc: Service) returns (m: string)
    ensures m == ServiceSection(svc)
  {
    var servicesMessage := "";
    if svc.errorMessage != "" {
      servicesMessage := svc.errorMessage + "\n";
    }
    var podErrorMessage := PodMessages(svc.pods);
    if servicesMessage != "" {
      servicesMessage := "svc " + svc.name + " error message \n" + servicesMessage;
    }
    if podErrorMessage != "" {
      podErrorMessage := "svc " + svc.name + " pod error message \n" + podErrorMessage;
    }
    m := servicesMessage + podErrorMessage;
  }

  /** Once the scan has returned early, the remaining pods change nothing. */
  lemma {:induction false} ScanStopsAt(svc: string, pods: seq<Pod>, o: nat -> PodOutcome, k: nat)
    requires k <= |pods| && ScanPods(svc, pods, o, k).aborted
    ensures ScanPods(svc, pods, o, |pods|) == ScanPods(svc, pods, o, k)
    decreases |pods| - k
  {
    if k < |pods| {
      ScanStopsAt(svc, pods, o, k + 1);
    }
  }

  /** The pod loop of a dump worker (job.go:418-445). */
  method DumpPods(svc: string, pods: seq<Pod>, outcome: nat -> PodOutcome) returns (scan: PodScan)
    ensures scan == ScanPods(svc, pods, outcome, |pods|)
  {
    var podExecList: seq<string> := [];
    var podErrorMap: map<string, string> := map[];
    var podIndex := 0;
    while podIndex < |pods|
      invariant 0 <= podIndex <= |pods|
      invariant ScanPods(svc, pods, outcome, podIndex) == PodScan(podExecList, podErrorMap, false)
    {
      var pod := pods[podIndex];
      if !pod.hasError {
        match outcome(podIndex) {
          case DialFailed(e) =>
            podErrorMap := podErrorMap[pod.addr := DialMessage(svc, pod.addr, e)];
          case TempFailed(e) =>
            podErrorMap := podErrorMap[pod.addr := TempMessage(svc, pod.addr, e)];
            ScanStopsAt(svc, pods, outcome, podIndex + 1);
            return PodScan(podExecList, podErrorMap, true);
          case DumpFailed(e) =>
            podErrorMap := podErrorMap[pod.addr := DumpMessage(svc, pod.addr, e)];
            ScanStopsAt(svc, pods, outcome, podIndex + 1);
            return PodScan(podExecList, podErrorMap, true);
          case Dumped(f) =>
            podExecList := podExecList + [f];
        }
      }
      podIndex := podIndex + 1;
    }
    return PodScan(podExecList, podErrorMap, false);
  }

  /** The listing filter of mergeAllSvcExec (job.go:506-511). */
  method ListExecFiles(dir: string, names: seq<string>) returns (svcExecList: seq<string>)
    ensures svcExecList == ExecPaths(dir, names)
  {
    svcExecList := [];
    var i := 0;
    while i < |names|
      invariant 0 <= i <= |names|
      invariant svcExecList == ExecPaths(dir, names[..i])
    {
      ExecPathsStep(dir, names, i);
      if HasSuffix(names[i], ".exec") {
        svcExecList := svcExecList + [ExecPath(dir, names[i])];
      }
      i := i + 1;
    }
    assert names[..i] == names;
  }

  /** The steady-state loop of schedulingJob over `ticks` five-minute ticks: `loopTimes`
      stays in [1, 10] and the full merge runs on ticks 10, 20, 30, ... */
  method SteadyStateMerges(ticks: nat) returns (mergeTicks: seq<nat>, loopTimes: nat)
    ensures 1 <= loopTimes <= 10 && loopTimes == ticks % 10 + 1
    ensures |mergeTicks| == ticks / 10
    ensures forall k :: 0 <= k < |mergeTicks| ==> mergeTicks[k] == 10 * (k + 1)
  {
    loopTimes := 1;
    mergeTicks := [];
    var tick := 0;
    while tick < ticks
      invariant 0 <= tick <= ticks
      invariant loopTimes == tick % 10 + 1
      invariant |mergeTicks| == tick / 10
      invariant forall k :: 0 <= k < |mergeTicks| ==> mergeTicks[k] == 10 * (k + 1)
    {
      tick := tick + 1;
      loopTimes := loopTimes + 1;
      if loopTimes > 10 {
        mergeTicks := mergeTicks + [tick];
        loopTimes := 1;
      }
    }
  }
}
