/** The agent's two process-wide registries (agent/core/job.go `RunJobs` and
    agent/core/watcher.go `Services`) and every operation that reads or updates them.
    The agent's goroutines run one step at a time here: a method is one such step, and
    the external actions it performs (processes, temp files, HTTP calls) are inputs. */
module Core {
  import opened Wrappers
  import opened Strings
  import opened Addr
  import opened Watcher
  import opened Jobs

  /** A key of RunJobs.  sync.Map keys are untyped: runs are stored under their uint64
      plan id, and DeleteService passes a service name. */
  datatype MapKey = PlanKey(plan: nat) | NameKey(name: string)

  /** What GetService returns for a missing name: `&Service{}`. */
  const ZeroService: Service := Service("", "", [], [], "", false, false)

  /** report's failures; `Text` is the error it returns. */
  datatype ReportFailure =
    | NoSvcExec
    | ProjectExecTemp(err: string)
    | ProjectMerge(err: string)
    | XmlTemp(err: string)
    | XmlReport(err: string)
    | XmlTar(err: string)
    | EndCallbackFailed(err: string)
    | HtmlReport(err: string)
    | HtmlTar(err: string)
    | ReportCallbackFailed(err: string)
  {
    /** The failures between DumpLock.Lock and DumpLock.Unlock. */
    predicate HeldLock() {
      NoSvcExec? || ProjectExecTemp? || ProjectMerge?
    }

    function Text(): string {
      match this
      case NoSvcExec => "not find svc exec dump file"
      case ProjectExecTemp(e) => "create project exec dump file error " + e
      case ProjectMerge(e) => "merge all svc exec dump error " + e
      case XmlTemp(e) => "failed to create project xml temp file, error " + e
      case XmlReport(e) => "failed to report project xml cover, error " + e
      case XmlTar(e) => "tar app report xml error " + e
      case EndCallbackFailed(e) => "report project cover xml error " + e
      case HtmlReport(e) => "faild report porject html, error " + e
      case HtmlTar(e) => "failed tar project html dir, error " + e
      case ReportCallbackFailed(e) => "failed report project html tar.gz, error " + e
    }
  }

  /** `s` holds the values of `m`, one per key, in some order of the keys: what ranging
      over a Go map and appending each value builds. */
  ghost predicate ListsValues(s: seq<string>, m: map<string, string>) {
    exists ks :: ListsOnce(ks, m.Keys) && |ks| == |s| && forall i :: 0 <= i < |s| ==> ks[i] in m && s[i] == m[ks[i]]
  }

  /** The failure report meets while it holds the DumpLock, given the services' artifacts
      and the project merge's sources in the order they were collected. */
  function LockedFailure(svcExecMap: map<string, string>, env: ReportEnv, sources: seq<string>): (r: Option<ReportFailure>)
    ensures r.Some? ==> r.value.HeldLock()
    ensures r == Some(NoSvcExec) <==> |svcExecMap| == 0
    ensures r.None? <==>
      |svcExecMap| > 0 && env.projectExec.Ok? && env.projectMerge(MergeArgs(env.projectExec.value, sources)).None?
  {
    if |svcExecMap| == 0 then Some(NoSvcExec)
    else if env.projectExec.Err? then Some(ProjectExecTemp(env.projectExec.error))
    else match env.projectMerge(MergeArgs(env.projectExec.value, sources))
      case Some(e) => Some(ProjectMerge(e))
      case None => None
  }

  /** report's Range over the services' artifacts, appending each to the merge's sources. */
  method CollectSources(svcExecMap: map<string, string>) returns (svcExecList: seq<string>)
    ensures ListsValues(svcExecList, svcExecMap)
  {
    svcExecList := [];
    var keys := svcExecMap.Keys;
    ghost var visited: seq<string> := [];
    while keys != {}
      invariant keys <= svcExecMap.Keys
      invariant ListsOnce(visited, svcExecMap.Keys - keys)
      invariant |visited| == |svcExecList|
      invariant forall i :: 0 <= i < |visited| ==> visited[i] in svcExecMap && svcExecList[i] == svcExecMap[visited[i]]
      decreases keys
    {
      var k :| k in keys;
      ListsOnceAppend(visited, svcExecMap.Keys - keys, k);
      assert svcExecMap.Keys - keys + {k} == svcExecMap.Keys - (keys - {k});
      svcExecList := svcExecList + [svcExecMap[k]];
      visited := visited + [k];
      keys := keys - {k};
    }
    assert svcExecMap.Keys - keys == svcExecMap.Keys;
  }

  /** report's merge of the services' artifacts into the project's, between its
      DumpLock.Lock and DumpLock.Unlock.  `svcExecList` is the list of sources it builds
      by ranging over the map. */
  method MergeProject(svcExecMap: map<string, string>, env: ReportEnv) returns (err: Option<ReportFailure>, svcExecList: seq<string>)
    ensures err == LockedFailure(svcExecMap, env, svcExecList)
    ensures |svcExecMap| > 0 && env.projectExec.Ok? ==> ListsValues(svcExecList, svcExecMap)
  {
    svcExecList := [];
    if |svcExecMap| == 0 {
      return Some(NoSvcExec), svcExecList;
    }
    if env.projectExec.Err? {
      return Some(ProjectExecTemp(env.projectExec.error)), svcExecList;
    }
    svcExecList := CollectSources(svcExecMap);
    var e := MergeExec(env.projectExec.value, svcExecList, env.projectMerge);
    if e.Some? {
      return Some(ProjectMerge(e.value)), svcExecList;
    }
    return None, svcExecList;
  }

  /** The `java` call that writes the project's report in `format` ("--xml" or "--html")
      to `out`, from the project artifact and the extracted classes and sources. */
  function ReportArgs(projectExec: string, format: string, out: string): seq<string> {
    ["java", "-jar", JacocoCliAddr, "report", projectExec, "--classfiles", GenProjectClassDir() + "/sub/libjarcls",
     "--sourcefiles", GenProjectClassDir() + "/sub/libjarsrc", format, out]
  }

  /** The shell call that archives `dir`, inside `tempDir`, as `archive`. */
  function TarArgs(tempDir: string, archive: string, dir: string): seq<string> {
    ["sh", "-c", "cd " + tempDir + " && tar -czf " + archive + " " + dir]
  }

  /** The xml report written into a fresh temp dir and archived there. */
  predicate XmlArchived(projectExec: string, env: ReportEnv) {
    && env.tempDir.Ok? && env.xmlCreate.None?
    && env.run(ReportArgs(projectExec, "--xml", env.tempDir.value + "/_project_xml")).None?
    && env.run(TarArgs(env.tempDir.value, "_project_xml.tar.gz", "_project_xml")).None?
  }

  /** Then the end callback accepted, and the html report written and archived. */
  predicate HtmlArchived(projectExec: string, env: ReportEnv) {
    && XmlArchived(projectExec, env) && env.endCallback.None?
    && env.run(ReportArgs(projectExec, "--html", env.tempDir.value + "/_project_html")).None?
    && env.run(TarArgs(env.tempDir.value, env.timestamp + ".tar.gz", "_project_html")).None?
  }

  /** The first failure among report's steps after the DumpLock's release. */
  function PublishFailure(projectExec: string, env: ReportEnv): (r: Option<ReportFailure>)
    ensures r.Some? ==> !r.value.HeldLock()
    ensures r.None? <==> HtmlArchived(projectExec, env) && env.reportCallback.None?
    ensures (r.Some? && (r.value.XmlTemp? || r.value.XmlReport? || r.value.XmlTar?)) <==> !XmlArchived(projectExec, env)
  {
    if env.tempDir.Err? then Some(XmlTemp(env.tempDir.error))
    else if env.xmlCreate.Some? then Some(XmlTemp(env.xmlCreate.value))
    else
      var tempDir := env.tempDir.value;
      var xmlReport := env.run(ReportArgs(projectExec, "--xml", tempDir + "/_project_xml"));
      var xmlTar := env.run(TarArgs(tempDir, "_project_xml.tar.gz", "_project_xml"));
      var htmlReport := env.run(ReportArgs(projectExec, "--html", tempDir + "/_project_html"));
      var htmlTar := env.run(TarArgs(tempDir, env.timestamp + ".tar.gz", "_project_html"));
      if xmlReport.Some? then Some(XmlReport(xmlReport.value))
      else if xmlTar.Some? then Some(XmlTar(xmlTar.value))
      else if env.endCallback.Some? then Some(EndCallbackFailed(env.endCallback.value))
      else if htmlReport.Some? then Some(HtmlReport(htmlReport.value))
      else if htmlTar.Some? then Some(HtmlTar(htmlTar.value))
      else if env.reportCallback.Some? then Some(ReportCallbackFailed(env.reportCallback.value))
      else None
  }

  /** The callbacks those steps send, both carrying `msg`: the success end callback once the
      xml archive exists, then the report callback once the html archive exists. */
  function PublishSent(planId: nat, projectExec: string, env: ReportEnv, msg: string): (r: seq<Callback>)
    ensures |r| == 0 <==> !XmlArchived(projectExec, env)
    ensures |r| == 2 <==> HtmlArchived(projectExec, env)
    ensures |r| > 0 ==> r[0] == EndCallback(planId, msg, SuccessStatus, env.tempDir.value + "/_project_xml.tar.gz")
    ensures |r| == 2 ==> r[1] == ReportCallback(planId, SuccessStatus, msg, env.tempDir.value + "/" + env.timestamp + ".tar.gz")
  {
    (if XmlArchived(projectExec, env) then [EndCallback(planId, msg, SuccessStatus, env.tempDir.value + "/_project_xml.tar.gz")] else [])
    + (if HtmlArchived(projectExec, env)
       then [ReportCallback(planId, SuccessStatus, msg, env.tempDir.value + "/" + env.timestamp + ".tar.gz")] else [])
  }

  /** report's outcome once it has merged the services: a failure under the lock, or else
      the first failure after it. */
  function ReportOutcome(svcExecMap: map<string, string>, env: ReportEnv, sources: seq<string>): (r: Option<ReportFailure>)
    ensures r.Some? && r.value.HeldLock() <==> LockedFailure(svcExecMap, env, sources).Some?
    ensures r.None? <==>
      && |svcExecMap| > 0 && env.projectExec.Ok? && env.projectMerge(MergeArgs(env.projectExec.value, sources)).None?
      && HtmlArchived(env.projectExec.value, env) && env.reportCallback.None?
  {
    var held := LockedFailure(svcExecMap, env, sources);
    if held.Some? then held else PublishFailure(env.projectExec.value, env)
  }

  /** The callbacks report sends: none when it fails under the lock. */
  function ReportSent(planId: nat, svcExecMap: map<string, string>, env: ReportEnv, sources: seq<string>, msg: string): (r: seq<Callback>)
    ensures ReportOutcome(svcExecMap, env, sources).None? ==>
      r == [EndCallback(planId, msg, SuccessStatus, env.tempDir.value + "/_project_xml.tar.gz"),
            ReportCallback(planId, SuccessStatus, msg, env.tempDir.value + "/" + env.timestamp + ".tar.gz")]
    ensures LockedFailure(svcExecMap, env, sources).Some? ==> r == []
  {
    if LockedFailure(svcExecMap, env, sources).Some? then [] else PublishSent(planId, env.projectExec.value, env, msg)
  }

  /** A service after reloadJarAddr stored the outcome of the jar discovery. */
  function Reloaded(svc: Service, jars: Result<seq<string>>): (r: Service)
    ensures r.name == svc.name && r.pods == svc.pods && r.image == svc.image && r.isDelete == svc.isDelete
    ensures jars.Ok? ==> r.jarAddrList == jars.value && r.errorMessage == svc.errorMessage
    ensures jars.Err? ==> r.jarAddrList == svc.jarAddrList && HasPrefix(r.errorMessage, "get svc " + svc.name + " jar package error ")
  {
    match jars
    case Ok(list) => svc.(jarAddrList := list)
    case Err(e) => svc.(errorMessage := "get svc " + svc.name + " jar package error " + e)
  }

  /** Every run cancelled, as saveJob's RunJobs.Range leaves them. */
  function CancelAll(jobs: map<MapKey, Job>): (r: map<MapKey, Job>)
    ensures r.Keys == jobs.Keys
    ensures forall k :: k in r ==> r[k].cancelled
  {
    map k | k in jobs :: jobs[k].(cancelled := true)
  }

  /** The external actions of report after its dump and merge: the project artifact
      (os.CreateTemp), the `java` merge of the services' artifacts, the report temp dir
      and xml file, every other process (by argument vector, program first), the order
      Range visits the services in, the end and report callbacks, and the timestamp. */
  datatype ReportEnv = ReportEnv(
    dump: string -> SvcDumpEnv,
    merge: string -> SvcMergeEnv,
    projectExec: Result<string>,
    projectMerge: seq<string> -> Option<string>,
    tempDir: Result<string>,
    xmlCreate: Option<string>,
    run: seq<string> -> Option<string>,
    order: seq<string>,
    endCallback: Option<string>,
    timestamp: string,
    reportCallback: Option<string>)

  /** The external actions of schedulingJob's start: whether the run's workspace exists
      or was created, the Range order, every process, the end callback's outcome, each
      service's dump actions, and the ready callback's outcome. */
  datatype StartEnv = StartEnv(
    planDirReady: bool,
    order: seq<string>,
    run: seq<string> -> Option<string>,
    loadCallback: Option<string>,
    dump: string -> SvcDumpEnv,
    readyCallback: Option<string>)

  /** The process that extracts the classes and sources of `jars`. */
  function ExtractArgs(jars: seq<string>): seq<string> {
    ["/bin/bash", "-lc", ExtractCommand(jars)]
  }

  /** loadClassSources' error for the jar list `jars`: no jar at all, or the extraction's
      failure, replaced by the end callback's own failure when that fails too. */
  function LoadFailure(jars: seq<string>, env: StartEnv): (r: Option<string>)
    ensures r.None? <==> |jars| > 0 && env.run(ExtractArgs(jars)).None?
    ensures |jars| == 0 ==> r == Some("all service not find jar path")
    ensures |jars| > 0 && env.run(ExtractArgs(jars)).Some? && env.loadCallback.None? ==> r == env.run(ExtractArgs(jars))
    ensures |jars| > 0 && env.run(ExtractArgs(jars)).Some? && env.loadCallback.Some? ==> r == env.loadCallback
  {
    if |jars| == 0 then Some("all service not find jar path")
    else match env.run(ExtractArgs(jars))
      case None => None
      case Some(e) => Some(if env.loadCallback.Some? then env.loadCallback.value else e)
  }

  /** The end callback loadClassSources sends when the extraction fails. */
  function LoadSent(planId: nat, jars: seq<string>, env: StartEnv): (r: seq<Callback>)
    ensures |r| == 1 <==> |jars| > 0 && env.run(ExtractArgs(jars)).Some?
    ensures |r| <= 1
    ensures |r| == 1 ==>
      r[0] == EndCallback(planId, "failed to get all svc jar classes and sources, error " + env.run(ExtractArgs(jars)).value, FailStatus, "")
  {
    if |jars| > 0 && env.run(ExtractArgs(jars)).Some?
    then [EndCallback(planId, "failed to get all svc jar classes and sources, error " + env.run(ExtractArgs(jars)).value, FailStatus, "")]
    else []
  }

  /** The ready callback, which callbackReady sends only to a run the coordinator does
      not already hold as ready. */
  function ReadySent(planId: nat, job: Job, msg: string): (r: seq<Callback>)
    ensures |r| == 1 <==> job.status != ReadyStatus
    ensures |r| <= 1 && (|r| == 1 ==> r[0] == ReadyCallback(planId, msg))
  {
    if job.status == ReadyStatus then [] else [ReadyCallback(planId, msg)]
  }

  /** At most one run whose context is still live. */
  ghost predicate OneLive(jobs: map<MapKey, Job>) {
    forall a, b :: a in jobs && b in jobs && !jobs[a].cancelled && !jobs[b].cancelled ==> a == b
  }

  /** Storing a run that is cancelled, or that is as live as the one it replaces, keeps at
      most one run live. */
  lemma OneLiveKept(jobs: map<MapKey, Job>, k: MapKey, j: Job)
    requires OneLive(jobs)
    requires j.cancelled || (k in jobs && jobs[k].cancelled == j.cancelled)
    ensures OneLive(jobs[k := j])
  {
  }

  /** The services `svcs` part way through dumpExec's workers over `start`: those
      visited dumped, those in `todo` untouched. */
  ghost predicate DumpedSoFar(env: string -> SvcDumpEnv, start: map<string, Service>, todo: set<string>, svcs: map<string, Service>) {
    && todo <= svcs.Keys && svcs.Keys == start.Keys
    && (forall k :: k in svcs && k !in todo ==> svcs[k] == DumpedService(start[k], env(k)))
    && (forall k :: k in todo ==> svcs[k] == start[k])
  }

  /** Dumping the next service keeps the services part way through the workers. */
  lemma DumpedStep(env: string -> SvcDumpEnv, start: map<string, Service>, todo: set<string>, svcs: map<string, Service>, key: string)
    requires DumpedSoFar(env, start, todo, svcs) && key in todo
    ensures svcs[key] == start[key]
    ensures DumpedSoFar(env, start, todo - {key}, svcs[key := DumpedService(svcs[key], env(key))])
  {
  }

  /** The services `svcs` part way through mergeAllSvcExec's Range over `start`: those
      visited merged, those in `todo` untouched. */
  ghost predicate ServicesMergedSoFar(planId: nat, env: string -> SvcMergeEnv, start: map<string, Service>, todo: set<string>,
                                      svcs: map<string, Service>)
  {
    && todo <= svcs.Keys && svcs.Keys == start.Keys
    && (forall k :: k in svcs && k !in todo ==> svcs[k] == MergedService(planId, start[k], env(k)))
    && (forall k :: k in todo ==> svcs[k] == start[k])
  }

  /** The artifacts and deleted files recorded part way through that Range: those of
      the services `done`, the visited part of `start`. */
  ghost predicate RecordedSoFar(planId: nat, env: string -> SvcMergeEnv, start: map<string, Service>, todo: set<string>,
                                done: map<string, Service>, svcExecMap: map<string, string>, removed: map<string, seq<string>>)
  {
    && done.Keys == start.Keys - todo
    && (forall k :: k in done ==> done[k] == start[k])
    && svcExecMap == MergedFiles(planId, done, env)
    && removed == MergedSources(planId, done, env)
  }

  /** Merging the next service keeps the services part way through the Range. */
  lemma ServicesMergedStep(planId: nat, env: string -> SvcMergeEnv, start: map<string, Service>, todo: set<string>,
                           svcs: map<string, Service>, key: string)
    requires ServicesMergedSoFar(planId, env, start, todo, svcs) && key in todo
    ensures svcs[key] == start[key]
    ensures ServicesMergedSoFar(planId, env, start, todo - {key}, svcs[key := MergedService(planId, svcs[key], env(key))])
  {
  }

  /** At the end of dumpExec's workers every service is dumped. */
  lemma DumpedSoFarDone(env: string -> SvcDumpEnv, start: map<string, Service>, svcs: map<string, Service>)
    requires DumpedSoFar(env, start, {}, svcs)
    ensures svcs == DumpedAll(start, env)
  {
  }

  /** At the end of mergeAllSvcExec's Range every service is merged and recorded. */
  lemma MergedSoFarDone(planId: nat, env: string -> SvcMergeEnv, start: map<string, Service>, svcs: map<string, Service>,
                        done: map<string, Service>, svcExecMap: map<string, string>, removed: map<string, seq<string>>)
    requires ServicesMergedSoFar(planId, env, start, {}, svcs) && RecordedSoFar(planId, env, start, {}, done, svcExecMap, removed)
    ensures svcs == MergedAll(planId, start, env)
    ensures svcExecMap == MergedFiles(planId, start, env) && removed == MergedSources(planId, start, env)
  {
    assert done == start;
  }

  /** Storing a service's own value back changes nothing. */
  lemma UpdateSameService(m: map<string, Service>, k: string)
    requires k in m
    ensures m[k := m[k]] == m
  {
  }

  /** Storing a key's own value back changes nothing. */
  lemma UpdateSame(m: map<MapKey, Job>, k: MapKey)
    requires k in m
    ensures m[k := m[k]] == m
  {
  }

  /** A second update of a key overrides the first. */
  lemma UpdateTwice(m: map<MapKey, Job>, k: MapKey, a: Job, b: Job)
    ensures m[k := a][k := b] == m[k := b]
  {
  }

  class Registries {
    var runJobs: map<MapKey, Job>
    var services: map<string, Service>
    /** The coordinator calls made, in order. */
    var outbox: seq<Callback>
    /** The contents of /usr/share/maven/conf/settings.xml. */
    var mavenSettings: string
    /** The process environment. */
    var environ: map<string, string>

    /** Runs are stored under their own plan id and services under their own name. */
    ghost predicate Valid()
      reads this
    {
      (forall k :: k in runJobs ==> k.PlanKey? && runJobs[k].planId == k.plan)
      && (forall n :: n in services ==> services[n].name == n)
    }

    /** At most one run whose context is still live. */
    ghost predicate AtMostOneLive()
      reads this
    {
      OneLive(runJobs)
    }

    ghost predicate Tracked(planId: nat)
      reads this
    {
      PlanKey(planId) in runJobs
    }

    constructor (settings: string, env: map<string, string>)
      ensures Valid() && AtMostOneLive()
      ensures runJobs == map[] && services == map[] && outbox == []
      ensures mavenSettings == settings && environ == env
    {
      runJobs := map[];
      services := map[];
      outbox := [];
      mavenSettings := settings;
      environ := env;
    }

    // -------------------------------------------------------------------------
    // RunJobs accessors (job.go)

    method GetJob(planId: nat) returns (job: Job, ok: bool)
      ensures ok <==> PlanKey(planId) in runJobs
      ensures ok ==> job == runJobs[PlanKey(planId)]
      ensures !ok ==> job == ZeroJob
    {
      if PlanKey(planId) in runJobs {
        job, ok := runJobs[PlanKey(planId)], true;
      } else {
        job, ok := ZeroJob, false;
      }
    }

    method SetJob(planId: nat, job: Job)
      modifies this`runJobs
      ensures runJobs == old(runJobs)[PlanKey(planId) := job]
      ensures services == old(services) && outbox == old(outbox)
    {
      runJobs := runJobs[PlanKey(planId) := job];
    }

    method DeleteJob(planId: nat)
      modifies this`runJobs
      ensures runJobs == old(runJobs) - {PlanKey(planId)}
      ensures services == old(services) && outbox == old(outbox)
    {
      runJobs := runJobs - {PlanKey(planId)};
    }

    // -------------------------------------------------------------------------
    // Services accessors (watcher.go)

    method GetService(name: string) returns (svc: Service, ok: bool)
      ensures ok <==> name in services
      ensures ok ==> svc == services[name]
      ensures !ok ==> svc == ZeroService
    {
      if name in services {
        svc, ok := services[name], true;
      } else {
        svc, ok := ZeroService, false;
      }
    }

    method SetService(name: string, svc: Service)
      modifies this`services
      ensures services == old(services)[name := svc]
    {
      services := services[name := svc];
    }

    /** DeleteService deletes the name from RunJobs, where no key is a name: neither
        registry changes, so a deleted service is never purged. */
    method DeleteService(name: string)
      requires Valid()
      modifies this`runJobs
      ensures runJobs == old(runJobs)
    {
      runJobs := runJobs - {NameKey(name)};
    }

    /** deleteService: flag the service deleted and cancel its scope; it stays registered. */
    method MarkServiceDeleted(name: string)
      modifies this`services
      ensures name in old(services) ==>
        services == old(services)[name := old(services)[name].(isDelete := true, cancelled := true)]
      ensures name !in old(services) ==> services == old(services)
    {
      var svc, ok := GetService(name);
      if ok {
        svc := svc.(isDelete := true, cancelled := true);
        SetService(name, svc);
      }
    }

    /** The goroutine saveServices starts for a new service, once the service's scope is
        cancelled and its ten minutes have passed: it changes neither registry. */
    method ServiceDeletionWatchdog(name: string)
      requires Valid()
      modifies this`runJobs
      ensures runJobs == old(runJobs)
    {
      var svc, ok := GetService(name);
      if !ok {
        return;
      }
      if svc.isDelete {
        DeleteService(svc.name);
      }
    }

    /** reloadJarAddr: discover the service's jars and store them, or the error, on the
        registered service of that name (nothing when it is gone).  Returns the
        discovery's own error; `panicked` is the discovery indexing the first pod of a
        service that has none, which ends the agent process before anything is stored. */
    method ReloadJarAddr(svc: Service, tempDir: string -> Option<string>, copyApp: string -> Result<seq<WalkEntry>>)
      returns (err: Option<string>, panicked: bool)
      requires Valid()
      modifies this`services
      ensures var scan := GetServiceJarPackage(svc, tempDir, copyApp);
        && (panicked <==> scan.NoPodPanic?)
        && (panicked ==> services == old(services) && err.None?)
        && (scan.Scanned? && svc.name !in old(services) ==> services == old(services) && err.None?)
        && (scan.Scanned? && svc.name in old(services) ==>
              && services == old(services)[svc.name := Reloaded(old(services)[svc.name], scan.jars)]
              && (err.Some? <==> scan.jars.Err?)
              && (scan.jars.Err? ==> err == Some(scan.jars.error)))
    {
      var scan := GetServiceJarPackage(svc, tempDir, copyApp);
      if scan.NoPodPanic? {
        return None, true;
      }
      var jarList := scan.jars;
      var service, ok := GetService(svc.name);
      if !ok {
        return None, false;
      }
      if jarList.Err? {
        service := service.(errorMessage := "get svc " + svc.name + " jar package error " + jarList.error);
        SetService(svc.name, service);
        return Some(jarList.error), false;
      }
      service := service.(jarAddrList := jarList.value);
      SetService(svc.name, service);
      return None, false;
    }

    /** saveServices: register a new service (and reload its jars now when `sync`, else
        launch the reload, reported as `asyncReload`), or refresh a known one's pods and
        image, launching a reload of the new service value only when the image changed.
        `panicked` is the reload this call runs or launches panicking on a service without
        pods, which ends the agent process. */
    method SaveServices(svc: Option<Service>, sync: bool, tempDir: string -> Option<string>, copyApp: string -> Result<seq<WalkEntry>>)
      returns (asyncReload: bool, panicked: bool)
      requires Valid()
      modifies this`services
      ensures Valid()
      ensures svc.None? ==> services == old(services) && !asyncReload && !panicked
      ensures svc.Some? ==>
        (panicked <==> (asyncReload || (sync && svc.value.name !in old(services)))
                       && GetServiceJarPackage(svc.value, tempDir, copyApp).NoPodPanic?)
      ensures svc.Some? && svc.value.name in old(services) ==>
        var o := old(services)[svc.value.name];
        services == old(services)[svc.value.name := o.(pods := svc.value.pods, image := svc.value.image)]
        && (asyncReload <==> o.image != svc.value.image)
      ensures svc.Some? && svc.value.name !in old(services) ==>
        var scan := GetServiceJarPackage(svc.value, tempDir, copyApp);
        && asyncReload == !sync
        && (!sync || scan.NoPodPanic? ==> services == old(services)[svc.value.name := svc.value])
        && (sync && scan.Scanned? ==> services == old(services)[svc.value.name := Reloaded(svc.value, scan.jars)])
    {
      if svc.None? {
        return false, false;
      }
      var s := svc.value;
      var oldSvc, ok := GetService(s.name);
      if !ok {
        SetService(s.name, s);
        if !sync {
          asyncReload := true;
          // the fate of the launched reload
          panicked := GetServiceJarPackage(s, tempDir, copyApp).NoPodPanic?;
        } else {
          var _, p := ReloadJarAddr(s, tempDir, copyApp);
          asyncReload, panicked := false, p;
        }
      } else {
        oldSvc := oldSvc.(pods := s.pods);
        SetService(s.name, oldSvc);
        asyncReload, panicked := false, false;
        if oldSvc.image != s.image {
          oldSvc := oldSvc.(image := s.image);
          SetService(s.name, oldSvc);
          asyncReload := true;
          panicked := GetServiceJarPackage(s, tempDir, copyApp).NoPodPanic?;
        }
      }
    }

    // -------------------------------------------------------------------------
    // saveJob and callbackEndWithMessage

    /** saveJob's RunJobs.Range: cancel every run. */
    method CancelAllJobs()
      modifies this`runJobs
      ensures runJobs == CancelAll(old(runJobs))
    {
      var todo := runJobs.Keys;
      ghost var start := runJobs;
      while todo != {}
        invariant todo <= runJobs.Keys && runJobs.Keys == start.Keys
        invariant forall k :: k in runJobs && k !in todo ==> runJobs[k] == start[k].(cancelled := true)
        invariant forall k :: k in todo ==> runJobs[k] == start[k]
        decreases todo
      {
        var key :| key in todo;
        var job := runJobs[key];
        job := job.(cancelled := true);
        runJobs := runJobs[key := job];
        todo := todo - {key};
      }
    }

    /** saveJob: a plan the agent does not track cancels every run, writes the Maven
        settings (`settingsOk` is whether that succeeded), exports the filters, registers
        the new run and starts its scheduling (`started`); a tracked plan only takes the
        coordinator's status. */
    method SaveJob(detail: Option<Detail>, settingsOk: bool) returns (started: bool)
      requires Valid()
      modifies this`runJobs, this`mavenSettings, this`environ
      ensures Valid()
      ensures detail.None? ==>
        !started && runJobs == old(runJobs) && mavenSettings == old(mavenSettings) && environ == old(environ)
      ensures detail.Some? && PlanKey(detail.value.planId) in old(runJobs) ==>
        var key := PlanKey(detail.value.planId);
        && !started && mavenSettings == old(mavenSettings) && environ == old(environ)
        && runJobs == old(runJobs)[key := old(runJobs)[key].(status := detail.value.status)]
      ensures detail.Some? && PlanKey(detail.value.planId) !in old(runJobs) ==>
        var d := detail.value;
        && started == settingsOk
        && (settingsOk ==> runJobs == CancelAll(old(runJobs))[PlanKey(d.planId) := NewJob(d)])
        && (settingsOk ==> mavenSettings == d.mavenSetting)
        && (settingsOk ==> environ == old(environ)["INCLUDES" := d.includes]["EXCLUDES" := d.excludes])
        && (!settingsOk ==> runJobs == CancelAll(old(runJobs)))
        && (!settingsOk ==> mavenSettings == old(mavenSettings) && environ == old(environ))
        && AtMostOneLive()
      ensures old(AtMostOneLive()) ==> AtMostOneLive()
    {
      if detail.None? {
        return false;
      }
      var d := detail.value;
      var job, ok := GetJob(d.planId);
      if !ok || job.planId != d.planId {
        var newJob := NewJob(d);
        CancelAllJobs();
        if !settingsOk {
          return false;
        }
        mavenSettings := d.mavenSetting;
        environ := environ["INCLUDES" := d.includes];
        environ := environ["EXCLUDES" := d.excludes];
        SetJob(d.planId, newJob);
        started := true;
      } else {
        job := job.(status := d.status);
        SetJob(d.planId, job);
        started := false;
      }
    }

    /** callbackEndWithMessage: fail and cancel the run, then report the end to the
        coordinator. */
    method CallbackEndWithMessage(planId: nat, message: string)
      requires Valid()
      modifies this`runJobs, this`outbox
      ensures Valid()
      ensures PlanKey(planId) !in old(runJobs) ==> runJobs == old(runJobs) && outbox == old(outbox)
      ensures PlanKey(planId) in old(runJobs) ==>
        && runJobs == old(runJobs)[PlanKey(planId) := old(runJobs)[PlanKey(planId)].(status := FailStatus, jobStatus := Fail, cancelled := true)]
        && outbox == old(outbox) + [EndCallback(planId, message, FailStatus, "")]
      ensures old(AtMostOneLive()) ==> AtMostOneLive()
      ensures services == old(services)
    {
      var job, ok := GetJob(planId);
      if !ok {
        return;
      }
      job := job.(status := FailStatus, jobStatus := Fail, cancelled := true);
      SetJob(planId, job);
      outbox := outbox + [EndCallback(planId, message, FailStatus, "")];
    }

    /** callbackReady's guard: nothing is sent for an unknown run or one whose coordinator
        status is already "ready". */
    method CallbackReady(planId: nat, msg: string, httpError: Option<string>) returns (err: Option<string>)
      modifies this`outbox
      ensures PlanKey(planId) !in runJobs || runJobs[PlanKey(planId)].status == ReadyStatus ==>
        err.None? && outbox == old(outbox)
      ensures PlanKey(planId) in runJobs && runJobs[PlanKey(planId)].status != ReadyStatus ==>
        err == httpError && outbox == old(outbox) + [ReadyCallback(planId, msg)]
    {
      var job, ok := GetJob(planId);
      if !ok || job.status == ReadyStatus {
        return None;
      }
      outbox := outbox + [ReadyCallback(planId, msg)];
      err := httpError;
    }

    // -------------------------------------------------------------------------
    // buildCallbackErrorMessage and loadClassSources

    /** buildCallbackErrorMessage, visiting the services in `order`. */
    method BuildCallbackErrorMessage(planId: nat, order: seq<string>) returns (msg: string)
      requires ListsOnce(order, services.Keys)
      ensures PlanKey(planId) !in runJobs ==> msg == ""
      ensures PlanKey(planId) in runJobs ==> msg == Truncate(FullMessage(runJobs[PlanKey(planId)], services, order), MaxMessage)
      ensures PlanKey(planId) in runJobs ==>
        (msg == "" <==> runJobs[PlanKey(planId)].errorMsg == "" && forall k :: k in services ==> Quiet(services[k]))
      ensures |msg| <= MaxMessage
    {
      var job, ok := GetJob(planId);
      if !ok {
        return "";
      }
      msg := "";
      if job.errorMsg != "" {
        msg := msg + job.errorMsg + "job error message: \n";
        msg := msg + job.errorMsg + "\n";
      }
      assert msg == JobSection(job);
      var allMessage := "";
      var i := 0;
      while i < |order|
        invariant 0 <= i <= |order|
        invariant allMessage == AllSections(services, order[..i])
      {
        var svc, found := GetService(order[i]);
        if found {
          var section := ServiceMessage(svc);
          allMessage := allMessage + section;
        }
        assert order[..i + 1][..i] == order[..i];
        i := i + 1;
      }
      assert order[..i] == order;
      if allMessage != "" {
        msg := msg + allMessage + "\n";
      }
      if |msg| > MaxMessage {
        msg := msg[..MaxMessage];
      }
      MessageEmptyIff(job, services, order);
    }

    /** loadClassSources: extract the classes and sources of the error-free services'
        jars, visiting the services in `order`.  A failed extraction is reported to the
        coordinator (whose outcome is `callbackError`). */
    method LoadClassSources(planId: nat, order: seq<string>, run: seq<string> -> Option<string>, callbackError: Option<string>)
      returns (err: Option<string>)
      requires ListsOnce(order, services.Keys)
      modifies this`outbox
      ensures (err == Some("all service not find jar path") && outbox == old(outbox)) <==>
        forall k :: k in services && services[k].errorMessage == "" ==> |services[k].jarAddrList| == 0
      ensures var jars := ClassSourceJars(services, order);
        && (|jars| == 0 ==> err == Some("all service not find jar path") && outbox == old(outbox))
        && (|jars| > 0 && run(ExtractArgs(jars)).None? ==> err.None? && outbox == old(outbox))
        && (|jars| > 0 && run(ExtractArgs(jars)).Some? ==>
              var e := run(ExtractArgs(jars)).value;
              && outbox == old(outbox) + [EndCallback(planId, "failed to get all svc jar classes and sources, error " + e, FailStatus, "")]
              && err == Some(if callbackError.Some? then callbackError.value else e))
    {
      var jarAddrList: seq<string> := [];
      var i := 0;
      while i < |order|
        invariant 0 <= i <= |order|
        invariant jarAddrList == ClassSourceJars(services, order[..i])
        invariant outbox == old(outbox)
      {
        var svc, ok := GetService(order[i]);
        if ok && svc.errorMessage == "" {
          jarAddrList := jarAddrList + svc.jarAddrList;
        }
        assert order[..i + 1][..i] == order[..i];
        i := i + 1;
      }
      assert order[..i] == order;
      RegistryJarsEmptyIff(services, order);
      if |jarAddrList| == 0 {
        return Some("all service not find jar path");
      }
      var e := run(ExtractArgs(jarAddrList));
      if e.Some? {
        outbox := outbox + [EndCallback(planId, "failed to get all svc jar classes and sources, error " + e.value, FailStatus, "")];
        if callbackError.Some? {
          return callbackError;
        }
        return e;
      }
      return None;
    }

    // -------------------------------------------------------------------------
    // dumpExec

    /** One dump worker up to its write-back: the pod loop and the service merge. */
    method DumpWorker(key: string, env: SvcDumpEnv) returns (r: Option<DumpResult>)
      ensures key !in services || services[key].isDelete ==> r.None?
      ensures key in services && !services[key].isDelete ==> r == CollectDump(services[key], env)
    {
      var svc, ok := GetService(key);
      if !ok || svc.isDelete {
        return None;
      }
      if !env.dirReady || env.svcExec.Err? {
        return None;
      }
      var scan := DumpPods(svc.name, svc.pods, env.pod);
      if scan.aborted {
        return None;
      }
      var err := MergeExec(env.svcExec.value, scan.execs, env.merge);
      var svcErrorMessage := "";
      if err.Some? {
        svcErrorMessage := "merge pod exec error " + err.value;
      }
      return Some(DumpResult(svcErrorMessage, scan.errors));
    }

    /** A dump worker's write-back onto the service as registered now. */
    method WriteBack(key: string, r: DumpResult)
      requires Valid()
      modifies this`services
      ensures Valid()
      ensures key in old(services) && !old(services)[key].isDelete ==>
        services == old(services)[key := WrittenBack(old(services)[key], r)]
      ensures key !in old(services) || old(services)[key].isDelete ==> services == old(services)
    {
      var nowSvc, ok := GetService(key);
      if !ok || nowSvc.isDelete {
        return;
      }
      ghost var before := nowSvc;
      nowSvc := nowSvc.(errorMessage := nowSvc.errorMessage + r.svcError);
      var pods := nowSvc.pods;
      var podIndex := 0;
      while podIndex < |pods|
        invariant 0 <= podIndex <= |pods| == |before.pods|
        invariant forall i :: 0 <= i < podIndex ==> pods[i] == MarkPod(before.pods[i], r.podErrors)
        invariant forall i :: podIndex <= i < |pods| ==> pods[i] == before.pods[i]
      {
        if Lookup(r.podErrors, pods[podIndex].addr) != "" {
          pods := pods[podIndex := pods[podIndex].(errorMsg := Lookup(r.podErrors, pods[podIndex].addr), hasError := true)];
        }
        podIndex := podIndex + 1;
      }
      nowSvc := nowSvc.(pods := pods);
      assert nowSvc == WrittenBack(before, r);
      SetService(key, nowSvc);
    }

    /** dumpExec: dump every service once.  On a run whose DumpLock is held it waits for
        ever (`blocked`, nothing happens); on a cancelled run it starts no worker. */
    method DumpExec(planId: nat, env: string -> SvcDumpEnv) returns (blocked: bool)
      requires Valid()
      modifies this`services
      ensures Valid()
      ensures blocked <==> PlanKey(planId) in runJobs && runJobs[PlanKey(planId)].dumpLocked
      ensures PlanKey(planId) in runJobs && !runJobs[PlanKey(planId)].dumpLocked && !runJobs[PlanKey(planId)].cancelled ==>
        services == DumpedAll(old(services), env)
      ensures PlanKey(planId) !in runJobs || runJobs[PlanKey(planId)].dumpLocked || runJobs[PlanKey(planId)].cancelled ==>
        services == old(services)
    {
      var job, ok := GetJob(planId);
      if !ok {
        return false;
      }
      if job.dumpLocked {
        return true;
      }
      if job.cancelled {
        return false;
      }
      DumpEach(env);
      blocked := false;
    }

    /** dumpExec's workers over every service, each writing its outcome back. */
    method DumpEach(env: string -> SvcDumpEnv)
      requires Valid()
      modifies this`services
      ensures Valid()
      ensures services == DumpedAll(old(services), env)
    {
      var todo := services.Keys;
      while todo != {}
        invariant Valid()
        invariant DumpedSoFar(env, old(services), todo, services)
        decreases todo
      {
        var key :| key in todo;
        DumpedStep(env, old(services), todo, services, key);
        DumpOne(key, env(key));
        todo := todo - {key};
      }
      DumpedSoFarDone(env, old(services), services);
    }

    /** One dumpExec worker and its write-back. */
    method DumpOne(key: string, env: SvcDumpEnv)
      requires Valid() && key in services
      modifies this`services
      ensures Valid()
      ensures services == old(services)[key := DumpedService(old(services)[key], env)]
    {
      var r := DumpWorker(key, env);
      if r.Some? {
        WriteBack(key, r.value);
      } else {
        UpdateSameService(services, key);
      }
    }

    // -------------------------------------------------------------------------
    // mergeAllSvcExec

    /** One service's step of mergeAllSvcExec. */
    method MergeServiceExec(planId: nat, key: string, env: SvcMergeEnv) returns (m: SvcMerge)
      requires Valid()
      modifies this`services
      ensures Valid()
      ensures key !in old(services) ==> m == Skipped && services == old(services)
      ensures key in old(services) ==>
        && m == MergeService(planId, old(services)[key], env)
        && services == old(services)[key := MergedService(planId, old(services)[key], env)]
    {
      var svc, ok := GetService(key);
      if !ok || svc.isDelete || env.listing.Err? {
        return Skipped;
      }
      var svcExecList := ListExecFiles(GenSvcDumpExecDir(planId, svc.name), env.listing.value);
      if env.svcExec.Err? {
        return Skipped;
      }
      var err := MergeExec(env.svcExec.value, svcExecList, env.merge);
      if err.Some? {
        var nowSvc, found := GetService(svc.name);
        if found && !nowSvc.isDelete {
          nowSvc := nowSvc.(errorMessage := nowSvc.errorMessage + "merge pod exec error " + err.value);
          SetService(svc.name, nowSvc);
        }
      }
      m := Merged(env.svcExec.value, svcExecList, err);
    }

    /** mergeAllSvcExec's Range over every service. */
    method MergeEachService(planId: nat, env: string -> SvcMergeEnv) returns (svcExecMap: map<string, string>, removed: map<string, seq<string>>)
      requires Valid()
      modifies this`services
      ensures Valid()
      ensures services == MergedAll(planId, old(services), env)
      ensures svcExecMap == MergedFiles(planId, old(services), env)
      ensures removed == MergedSources(planId, old(services), env)
    {
      svcExecMap, removed := map[], map[];
      var todo := services.Keys;
      ghost var done: map<string, Service> := map[];
      while todo != {}
        invariant Valid()
        invariant MergedSoFar(planId, env, old(services), todo, done, svcExecMap, removed)
        decreases todo
      {
        var key :| key in todo;
        svcExecMap, removed := MergeAndRecord(planId, key, env, old(services), todo, done, svcExecMap, removed);
        done := done[key := old(services)[key]];
        todo := todo - {key};
      }
      MergedSoFarDone(planId, env, old(services), services, done, svcExecMap, removed);
    }

    /** mergeAllSvcExec's Range over the services `start`, with `todo` still to visit:
        the visited ones, recorded in `done`, are merged, and their artifacts and deleted
        files are in `svcExecMap` and `removed`. */
    ghost predicate MergedSoFar(planId: nat, env: string -> SvcMergeEnv, start: map<string, Service>, todo: set<string>,
                                done: map<string, Service>, svcExecMap: map<string, string>, removed: map<string, seq<string>>)
      reads this
    {
      ServicesMergedSoFar(planId, env, start, todo, services) && RecordedSoFar(planId, env, start, todo, done, svcExecMap, removed)
    }

    /** One step of mergeAllSvcExec's Range: merge the service `key` and record its
        artifact and deleted files beside those of the services `done` before it. */
    method MergeAndRecord(planId: nat, key: string, env: string -> SvcMergeEnv, ghost start: map<string, Service>,
                          ghost todo: set<string>, ghost done: map<string, Service>,
                          svcExecMap: map<string, string>, removed: map<string, seq<string>>)
      returns (nextExecMap: map<string, string>, nextRemoved: map<string, seq<string>>)
      requires Valid() && key in todo && MergedSoFar(planId, env, start, todo, done, svcExecMap, removed)
      modifies this`services
      ensures Valid()
      ensures MergedSoFar(planId, env, start, todo - {key}, done[key := start[key]], nextExecMap, nextRemoved)
    {
      ServicesMergedStep(planId, env, start, todo, services, key);
      MergedFilesStep(planId, done, key, start[key], env);
      MergedSourcesStep(planId, done, key, start[key], env);
      var m := MergeServiceExec(planId, key, env(key));
      nextExecMap, nextRemoved := svcExecMap, removed;
      if m.Merged? {
        nextExecMap := svcExecMap[key := m.file];
        nextRemoved := removed[key := m.sources];
      }
    }

    /** mergeAllSvcExec: merge each live service's dumps into a fresh artifact and delete
        them.  Returns the artifacts and the deleted files, by service. */
    method MergeAllSvcExec(planId: nat, env: string -> SvcMergeEnv)
      returns (blocked: bool, svcExecMap: map<string, string>, removed: map<string, seq<string>>)
      requires Valid()
      modifies this`services
      ensures Valid()
      ensures blocked <==> PlanKey(planId) in runJobs && runJobs[PlanKey(planId)].dumpLocked
      ensures PlanKey(planId) in runJobs && !runJobs[PlanKey(planId)].dumpLocked && !runJobs[PlanKey(planId)].cancelled ==>
        && services == MergedAll(planId, old(services), env)
        && svcExecMap == MergedFiles(planId, old(services), env)
        && removed == MergedSources(planId, old(services), env)
      ensures PlanKey(planId) !in runJobs || runJobs[PlanKey(planId)].dumpLocked || runJobs[PlanKey(planId)].cancelled ==>
        services == old(services) && svcExecMap == map[] && removed == map[]
    {
      svcExecMap, removed := map[], map[];
      var job, ok := GetJob(planId);
      if !ok {
        return false, svcExecMap, removed;
      }
      if job.dumpLocked {
        return true, svcExecMap, removed;
      }
      if job.cancelled {
        return false, svcExecMap, removed;
      }
      svcExecMap, removed := MergeEachService(planId, env);
      blocked := false;
    }

    // -------------------------------------------------------------------------
    // report and schedulingJob

    /** report's dumpExec and mergeAllSvcExec. */
    method DumpAndMerge(planId: nat, env: ReportEnv) returns (blocked: bool, svcExecMap: map<string, string>)
      requires Valid()
      modifies this`services
      ensures Valid()
      ensures blocked <==> PlanKey(planId) in runJobs && runJobs[PlanKey(planId)].dumpLocked
      ensures blocked ==> services == old(services)
      ensures !blocked && PlanKey(planId) in runJobs && runJobs[PlanKey(planId)].cancelled ==> services == old(services) && svcExecMap == map[]
      ensures !blocked && PlanKey(planId) in runJobs && !runJobs[PlanKey(planId)].cancelled ==>
        var dumped := DumpedAll(old(services), env.dump);
        services == MergedAll(planId, dumped, env.merge) && svcExecMap == MergedFiles(planId, dumped, env.merge)
    {
      blocked := DumpExec(planId, env.dump);
      if blocked {
        return true, map[];
      }
      var removed;
      blocked, svcExecMap, removed := MergeAllSvcExec(planId, env.merge);
    }

    /** report: for an ending run, dump and merge every service, merge the services'
        artifacts into the project's, write the xml and html reports and send them.  The
        DumpLock taken after the merge is left held by the failures before its Unlock;
        `blocked` is report waiting for ever on a DumpLock already held, and
        `projectSources` the order its Range gave the project merge's sources. */
    method Report(planId: nat, env: ReportEnv) returns (err: Option<ReportFailure>, blocked: bool, ghost projectSources: seq<string>)
      requires Valid() && ListsOnce(env.order, services.Keys)
      modifies this`services, this`runJobs, this`outbox
      ensures Valid()
      ensures !old(PlanKey(planId) in runJobs && runJobs[PlanKey(planId)].status == EndingStatus) ==>
        err.None? && !blocked && runJobs == old(runJobs) && services == old(services) && outbox == old(outbox)
      ensures old(PlanKey(planId) in runJobs && runJobs[PlanKey(planId)].status == EndingStatus) ==>
        var job := old(runJobs[PlanKey(planId)]);
        && (blocked <==> job.dumpLocked)
        && (blocked ==> err.None? && runJobs == old(runJobs) && services == old(services) && outbox == old(outbox))
        && (!blocked ==> runJobs == old(runJobs)[PlanKey(planId) := job.(dumpLocked := err.Some? && err.value.HeldLock())])
        && (!blocked && job.cancelled ==> err == Some(NoSvcExec) && services == old(services) && outbox == old(outbox))
      ensures old(PlanKey(planId) in runJobs && runJobs[PlanKey(planId)].status == EndingStatus)
              && !blocked && !old(runJobs[PlanKey(planId)].cancelled) ==>
        var dumped := DumpedAll(old(services), env.dump);
        var files := MergedFiles(planId, dumped, env.merge);
        && services == MergedAll(planId, dumped, env.merge)
        && err == ReportOutcome(files, env, projectSources)
        && (|files| > 0 && env.projectExec.Ok? ==> ListsValues(projectSources, files))
        && outbox == old(outbox) + ReportSent(planId, files, env, projectSources,
                                              Truncate(FullMessage(old(runJobs[PlanKey(planId)]), services, env.order), MaxMessage))
    {
      projectSources := [];
      var job, ok := GetJob(planId);
      if !ok || job.status != EndingStatus {
        return None, false, projectSources;
      }
      var svcExecMap;
      blocked, svcExecMap := DumpAndMerge(planId, env);
      if blocked {
        return None, true, projectSources;
      }
      err, projectSources := MergeAndPublish(planId, job, svcExecMap, env);
    }

    /** report between its DumpLock.Lock and DumpLock.Unlock: merge the project artifact.
        A failure returns with the lock still held. */
    method MergeUnderLock(planId: nat, job: Job, svcExecMap: map<string, string>, env: ReportEnv)
      returns (err: Option<ReportFailure>, ghost projectSources: seq<string>)
      requires Valid() && PlanKey(planId) in runJobs && runJobs[PlanKey(planId)] == job && !job.dumpLocked
      modifies this`runJobs
      ensures Valid()
      ensures err == LockedFailure(svcExecMap, env, projectSources)
      ensures |svcExecMap| > 0 && env.projectExec.Ok? ==> ListsValues(projectSources, svcExecMap)
      ensures runJobs == old(runJobs)[PlanKey(planId) := job.(dumpLocked := err.Some?)]
    {
      SetJob(planId, job.(dumpLocked := true));
      err, projectSources := MergeProject(svcExecMap, env);
      if err.None? {
        SetJob(planId, job);
        UpdateTwice(old(runJobs), PlanKey(planId), job.(dumpLocked := true), job);
      }
    }

    /** report from its DumpLock.Lock on: merge the project artifact under the lock, and
        publish the reports once it is released. */
    method MergeAndPublish(planId: nat, job: Job, svcExecMap: map<string, string>, env: ReportEnv)
      returns (err: Option<ReportFailure>, ghost projectSources: seq<string>)
      requires Valid() && ListsOnce(env.order, services.Keys)
      requires PlanKey(planId) in runJobs && runJobs[PlanKey(planId)] == job && !job.dumpLocked
      modifies this`runJobs, this`outbox
      ensures Valid()
      ensures err == ReportOutcome(svcExecMap, env, projectSources)
      ensures |svcExecMap| > 0 && env.projectExec.Ok? ==> ListsValues(projectSources, svcExecMap)
      ensures runJobs == old(runJobs)[PlanKey(planId) := job.(dumpLocked := err.Some? && err.value.HeldLock())]
      ensures outbox == old(outbox) + ReportSent(planId, svcExecMap, env, projectSources, Truncate(FullMessage(job, services, env.order), MaxMessage))
    {
      ghost var msg := Truncate(FullMessage(job, services, env.order), MaxMessage);
      err, projectSources := MergeUnderLock(planId, job, svcExecMap, env);
      if err.Some? {
        assert ReportSent(planId, svcExecMap, env, projectSources, msg) == [];
        return;
      }
      UpdateSame(old(runJobs), PlanKey(planId));
      err := PublishReports(planId, env.projectExec.value, env);
      assert ReportSent(planId, svcExecMap, env, projectSources, msg) == PublishSent(planId, env.projectExec.value, env, msg);
    }

    /** report after its DumpLock.Unlock: write and archive the xml report, send it with
        the callback message, then write, archive and send the html report. */
    method PublishReports(planId: nat, projectExec: string, env: ReportEnv) returns (err: Option<ReportFailure>)
      requires ListsOnce(env.order, services.Keys)
      modifies this`outbox
      ensures err == PublishFailure(projectExec, env)
      ensures var msg := if PlanKey(planId) in runJobs then Truncate(FullMessage(runJobs[PlanKey(planId)], services, env.order), MaxMessage) else "";
        outbox == old(outbox) + PublishSent(planId, projectExec, env, msg)
    {
      if env.tempDir.Err? {
        return Some(XmlTemp(env.tempDir.error));
      }
      var tempDir := env.tempDir.value;
      var fileName := tempDir + "/_project_xml";
      if env.xmlCreate.Some? {
        return Some(XmlTemp(env.xmlCreate.value));
      }
      var e := env.run(ReportArgs(projectExec, "--xml", fileName));
      if e.Some? {
        return Some(XmlReport(e.value));
      }
      e := env.run(TarArgs(tempDir, "_project_xml.tar.gz", "_project_xml"));
      if e.Some? {
        return Some(XmlTar(e.value));
      }
      var errorMessage := BuildCallbackErrorMessage(planId, env.order);
      outbox := outbox + [EndCallback(planId, errorMessage, SuccessStatus, tempDir + "/_project_xml.tar.gz")];
      if env.endCallback.Some? {
        return Some(EndCallbackFailed(env.endCallback.value));
      }
      e := env.run(ReportArgs(projectExec, "--html", tempDir + "/_project_html"));
      if e.Some? {
        return Some(HtmlReport(e.value));
      }
      e := env.run(TarArgs(tempDir, env.timestamp + ".tar.gz", "_project_html"));
      if e.Some? {
        return Some(HtmlTar(e.value));
      }
      outbox := outbox + [ReportCallback(planId, SuccessStatus, errorMessage, tempDir + "/" + env.timestamp + ".tar.gz")];
      if env.reportCallback.Some? {
        return Some(ReportCallbackFailed(env.reportCallback.value));
      }
      return None;
    }

    /** report's effects on an ending, unlocked run `job`: the services `services0`
        dumped and merged into `services1`, the report's outcome `err`, and the callbacks
        it sent taking the outbox from `outbox0` to `outbox1`. */
    ghost predicate Reported(planId: nat, job: Job, env: ReportEnv, err: Option<ReportFailure>, projectSources: seq<string>,
                             services0: map<string, Service>, services1: map<string, Service>, outbox0: seq<Callback>, outbox1: seq<Callback>)
    {
      var dumped := DumpedAll(services0, env.dump);
      var files := MergedFiles(planId, dumped, env.merge);
      && services1 == MergedAll(planId, dumped, env.merge)
      && err == ReportOutcome(files, env, projectSources)
      && (|files| > 0 && env.projectExec.Ok? ==> ListsValues(projectSources, files))
      && outbox1 == outbox0 + ReportSent(planId, files, env, projectSources, Truncate(FullMessage(job, services1, env.order), MaxMessage))
    }

    /** ReportOrEnd's failure path: the run `job`, whose report failed with `err` after
        `base` was its registry, is ended with the report's error. */
    method EndFailedReport(planId: nat, job: Job, err: ReportFailure, ghost base: map<MapKey, Job>)
      requires Valid() && runJobs == base[PlanKey(planId) := job.(dumpLocked := err.HeldLock())]
      modifies this`runJobs, this`outbox
      ensures Valid()
      ensures OneLive(base) ==> AtMostOneLive()
      ensures runJobs == base[PlanKey(planId) := job.(dumpLocked := err.HeldLock(), status := FailStatus,
                                                     jobStatus := Fail, cancelled := true)]
      ensures outbox == old(outbox) + [EndCallback(planId, "report xml and html error " + err.Text(), FailStatus, "")]
      ensures services == old(services)
    {
      ghost var locked := job.(dumpLocked := err.HeldLock());
      ghost var ended := locked.(status := FailStatus, jobStatus := Fail, cancelled := true);
      if OneLive(base) {
        OneLiveKept(base, PlanKey(planId), ended);
      }
      CallbackEndWithMessage(planId, "report xml and html error " + err.Text());
      UpdateTwice(base, PlanKey(planId), locked, ended);
    }

    /** The watchdog's pass over an ending run `job`: report, and end the run with the
        report's error when it fails.  A report blocked on the DumpLock changes nothing. */
    method ReportOrEnd(planId: nat, job: Job, env: ReportEnv)
      returns (reportErr: Option<ReportFailure>, ghost projectSources: seq<string>, ghost reported: seq<Callback>)
      requires Valid() && ListsOnce(env.order, services.Keys)
      requires PlanKey(planId) in runJobs && runJobs[PlanKey(planId)] == job && job.status == EndingStatus && !job.cancelled
      modifies this`services, this`runJobs, this`outbox
      ensures Valid()
      ensures old(AtMostOneLive()) ==> AtMostOneLive()
      ensures job.dumpLocked ==>
        reportErr.None? && runJobs == old(runJobs) && services == old(services) && outbox == old(outbox)
      ensures !job.dumpLocked ==>
        && Reported(planId, job, env, reportErr, projectSources, old(services), services, old(outbox), reported)
        && (reportErr.None? ==> runJobs == old(runJobs) && outbox == reported)
        && (reportErr.Some? ==>
              && runJobs == old(runJobs)[PlanKey(planId) := job.(dumpLocked := reportErr.value.HeldLock(), status := FailStatus,
                                                                 jobStatus := Fail, cancelled := true)]
              && outbox == reported + [EndCallback(planId, "report xml and html error " + reportErr.value.Text(), FailStatus, "")])
    {
      reportErr, projectSources := ReportEnding(planId, job, env);
      reported := outbox;
      if reportErr.Some? {
        EndFailedReport(planId, job, reportErr.value, old(runJobs));
      }
    }

    /** report on the ending run `job`, as the watchdog calls it. */
    method ReportEnding(planId: nat, job: Job, env: ReportEnv) returns (err: Option<ReportFailure>, ghost projectSources: seq<string>)
      requires Valid() && ListsOnce(env.order, services.Keys)
      requires PlanKey(planId) in runJobs && runJobs[PlanKey(planId)] == job && job.status == EndingStatus && !job.cancelled
      modifies this`services, this`runJobs, this`outbox
      ensures Valid()
      ensures old(AtMostOneLive()) ==> AtMostOneLive()
      ensures job.dumpLocked ==>
        err.None? && runJobs == old(runJobs) && services == old(services) && outbox == old(outbox)
      ensures !job.dumpLocked ==>
        && Reported(planId, job, env, err, projectSources, old(services), services, old(outbox), outbox)
        && runJobs == (if err.Some? then old(runJobs)[PlanKey(planId) := job.(dumpLocked := err.value.HeldLock())] else old(runJobs))
    {
      ghost var oneLive := AtMostOneLive();
      var hung;
      err, hung, projectSources := Report(planId, env);
      if oneLive && !job.dumpLocked {
        OneLiveKept(old(runJobs), PlanKey(planId), job.(dumpLocked := err.Some? && err.value.HeldLock()));
      }
      if err.None? && !job.dumpLocked {
        assert job.(dumpLocked := false) == job;
        UpdateSame(old(runJobs), PlanKey(planId));
      }
    }

    /** One pass of schedulingJob's watchdog goroutine; `exit` is the goroutine ending and
        `reportErr` the failure of the report this pass made, if any.  A cancelled run is
        removed (after its workspace is deleted, which is not modelled); a run in a
        terminal status is cancelled; an ending run is reported, and a failed report ends
        the run.  A report blocked on the DumpLock is the goroutine hanging. */
    method WatchdogTick(planId: nat, env: ReportEnv)
      returns (exit: bool, reportErr: Option<ReportFailure>, ghost projectSources: seq<string>, ghost reported: seq<Callback>)
      requires Valid() && ListsOnce(env.order, services.Keys)
      modifies this`services, this`runJobs, this`outbox
      ensures Valid()
      ensures old(AtMostOneLive()) ==> AtMostOneLive()
      ensures PlanKey(planId) !in old(runJobs) ==>
        exit && reportErr.None? && runJobs == old(runJobs) && services == old(services) && outbox == old(outbox)
      ensures PlanKey(planId) in old(runJobs) && old(runJobs[PlanKey(planId)].cancelled) ==>
        exit && reportErr.None? && runJobs == old(runJobs) - {PlanKey(planId)} && services == old(services) && outbox == old(outbox)
      ensures PlanKey(planId) in old(runJobs) && !old(runJobs[PlanKey(planId)].cancelled) ==>
        var job := old(runJobs[PlanKey(planId)]);
        && (exit <==> IsTerminal(job.status))
        && (job.status != EndingStatus ==> reportErr.None?)
        && (IsTerminal(job.status) ==>
              runJobs == old(runJobs)[PlanKey(planId) := job.(cancelled := true)] && services == old(services) && outbox == old(outbox))
        && (!IsTerminal(job.status) && job.status != EndingStatus ==>
              runJobs == old(runJobs) && services == old(services) && outbox == old(outbox))
        && (job.status == EndingStatus && job.dumpLocked ==>
              reportErr.None? && runJobs == old(runJobs) && services == old(services) && outbox == old(outbox))
      ensures PlanKey(planId) in old(runJobs) && !old(runJobs[PlanKey(planId)].cancelled)
              && old(runJobs[PlanKey(planId)].status) == EndingStatus && !old(runJobs[PlanKey(planId)].dumpLocked) ==>
        var job := old(runJobs[PlanKey(planId)]);
        && Reported(planId, job, env, reportErr, projectSources, old(services), services, old(outbox), reported)
        && (reportErr.None? ==> runJobs == old(runJobs) && outbox == reported)
        && (reportErr.Some? ==>
              && runJobs == old(runJobs)[PlanKey(planId) := job.(dumpLocked := reportErr.value.HeldLock(), status := FailStatus,
                                                                 jobStatus := Fail, cancelled := true)]
              && outbox == reported + [EndCallback(planId, "report xml and html error " + reportErr.value.Text(), FailStatus, "")])
    {
      projectSources, reportErr, reported := [], None, outbox;
      var job, ok := GetJob(planId);
      if !ok {
        return true, None, projectSources, reported;
      }
      if job.cancelled {
        DeleteJob(planId);
        return true, None, projectSources, reported;
      }
      if job.status == FailStatus || job.status == SuccessStatus || job.status == CancelStatus {
        SetJob(planId, job.(cancelled := true));
        return true, None, projectSources, reported;
      }
      if job.status == EndingStatus {
        reportErr, projectSources, reported := ReportOrEnd(planId, job, env);
      }
      return false, reportErr, projectSources, reported;
    }

    /** schedulingJob's steps between its checks and marking the run ready: extract the
        class sources, dump once and send the ready callback.  `failure` is the message
        the run is then ended with; `blocked` is the dump waiting on a held DumpLock. */
    method PrepareRun(planId: nat, job: Job, env: StartEnv) returns (failure: Option<string>, blocked: bool)
      requires Valid() && PlanKey(planId) in runJobs && runJobs[PlanKey(planId)] == job && ListsOnce(env.order, services.Keys)
      modifies this`services, this`outbox
      ensures Valid()
      ensures var jars := ClassSourceJars(old(services), env.order);
        var loaded := LoadFailure(jars, env).None?;
        && (blocked <==> loaded && job.dumpLocked)
        && (blocked ==> failure.None? && services == old(services) && outbox == old(outbox))
        && (!loaded ==>
              && failure == Some("loadClassSources error " + LoadFailure(jars, env).value)
              && services == old(services) && outbox == old(outbox) + LoadSent(planId, jars, env))
        && (loaded && !job.dumpLocked ==>
              && services == (if job.cancelled then old(services) else DumpedAll(old(services), env.dump))
              && outbox == old(outbox) + ReadySent(planId, job, Truncate(FullMessage(job, services, env.order), MaxMessage))
              && failure == (if job.status != ReadyStatus && env.readyCallback.Some?
                             then Some("callback ready error " + env.readyCallback.value) else None))
    {
      var err := LoadClassSources(planId, env.order, env.run, env.loadCallback);
      if err.Some? {
        return Some("loadClassSources error " + err.value), false;
      }
      failure, blocked := DumpAndReady(planId, job, env);
    }

    /** schedulingJob after the class sources are extracted: dump once, then send the
        ready callback with the run's message. */
    method DumpAndReady(planId: nat, job: Job, env: StartEnv) returns (failure: Option<string>, blocked: bool)
      requires Valid() && PlanKey(planId) in runJobs && runJobs[PlanKey(planId)] == job && ListsOnce(env.order, services.Keys)
      modifies this`services, this`outbox
      ensures Valid()
      ensures blocked <==> job.dumpLocked
      ensures blocked ==> failure.None? && services == old(services) && outbox == old(outbox)
      ensures !blocked ==>
        && services == (if job.cancelled then old(services) else DumpedAll(old(services), env.dump))
        && outbox == old(outbox) + ReadySent(planId, job, Truncate(FullMessage(job, services, env.order), MaxMessage))
        && failure == (if job.status != ReadyStatus && env.readyCallback.Some?
                       then Some("callback ready error " + env.readyCallback.value) else None)
    {
      blocked := DumpExec(planId, env.dump);
      if blocked {
        return None, true;
      }
      var msg := BuildCallbackErrorMessage(planId, env.order);
      var err := CallbackReady(planId, msg, env.readyCallback);
      if err.Some? {
        return Some("callback ready error " + err.value), false;
      }
      return None, false;
    }

    /** schedulingJob up to its steady state: for a running run whose workspace is ready,
        extract the class sources, dump once, send the ready callback and mark the run
        ready.  `steady` is reaching the five-minute loop; each failure ends the run, and a
        dump blocked on a held DumpLock is the start hanging. */
    method StartJob(planId: nat, env: StartEnv) returns (steady: bool)
      requires Valid() && ListsOnce(env.order, services.Keys)
      modifies this`services, this`runJobs, this`outbox
      ensures Valid()
      ensures old(AtMostOneLive()) ==> AtMostOneLive()
      ensures !(PlanKey(planId) in old(runJobs) && old(runJobs[PlanKey(planId)].jobStatus) == Running && env.planDirReady) ==>
        !steady && runJobs == old(runJobs) && services == old(services) && outbox == old(outbox)
      ensures PlanKey(planId) in old(runJobs) && old(runJobs[PlanKey(planId)].jobStatus) == Running && env.planDirReady ==>
        Started(planId, old(runJobs[PlanKey(planId)]), env, steady, old(runJobs), old(services), old(outbox))
    {
      var job, ok := GetJob(planId);
      if !ok || job.jobStatus != Running || !env.planDirReady {
        return false;
      }
      steady := RunToSteady(planId, job, env);
    }

    /** The state after schedulingJob started the running run `job` from the registries
        `runs0`, `services0` and `outbox0`: its class sources extracted (or the run ended
        with the extraction's error), its services dumped, the ready callback sent (or the
        run ended with its error), and the run marked ready. */
    ghost predicate Started(planId: nat, job: Job, env: StartEnv, steady: bool,
                            runs0: map<MapKey, Job>, services0: map<string, Service>, outbox0: seq<Callback>)
      reads this
    {
      var jars := ClassSourceJars(services0, env.order);
      var loaded := LoadFailure(jars, env).None?;
      var ready := ReadySent(planId, job, Truncate(FullMessage(job, services, env.order), MaxMessage));
      var failed := job.(status := FailStatus, jobStatus := Fail, cancelled := true);
      && (steady <==> loaded && !job.dumpLocked && (job.status == ReadyStatus || env.readyCallback.None?))
      && (loaded && job.dumpLocked ==> runJobs == runs0 && services == services0 && outbox == outbox0)
      && (!loaded ==>
            && runJobs == runs0[PlanKey(planId) := failed] && services == services0
            && outbox == outbox0 + LoadSent(planId, jars, env)
                         + [EndCallback(planId, "loadClassSources error " + LoadFailure(jars, env).value, FailStatus, "")])
      && (loaded && !job.dumpLocked ==>
            services == (if job.cancelled then services0 else DumpedAll(services0, env.dump)))
      && (steady ==> runJobs == runs0[PlanKey(planId) := job.(jobStatus := Ready)] && outbox == outbox0 + ready)
      && (loaded && !job.dumpLocked && !steady ==>
            && runJobs == runs0[PlanKey(planId) := failed]
            && outbox == outbox0 + ready + [EndCallback(planId, "callback ready error " + env.readyCallback.value, FailStatus, "")])
    }

    /** schedulingJob from its loadClassSources on, for the running run `job`. */
    method RunToSteady(planId: nat, job: Job, env: StartEnv) returns (steady: bool)
      requires Valid() && ListsOnce(env.order, services.Keys) && PlanKey(planId) in runJobs && runJobs[PlanKey(planId)] == job
      modifies this`services, this`runJobs, this`outbox
      ensures Valid()
      ensures old(AtMostOneLive()) ==> AtMostOneLive()
      ensures Started(planId, job, env, steady, old(runJobs), old(services), old(outbox))
    {
      var failure, blocked := PrepareRun(planId, job, env);
      if blocked {
        return false;
      }
      if failure.Some? {
        CallbackEndWithMessage(planId, failure.value);
        return false;
      }
      SetJob(planId, job.(jobStatus := Ready));
      steady := true;
    }
  }
}
