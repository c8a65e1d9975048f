/** The value-level part of agent/core/watcher.go: the Service and Pod records, how a
    Deployment is recognised as coverage-instrumented (`getServiceByDeploy`), how the
    jar list is picked out of a copied application directory (`getServiceJarPackage`),
    and the tar-extraction helpers (`getPrefix`, `stripPathShortcuts`, `unTarAll`).
    The registry operations over `Services` live in module Core. */
module Watcher {
  import opened Wrappers
  import opened Strings

  /** One running instance of a service. */
  datatype Pod = Pod(addr: string, podName: string, containerName: string, errorMsg: string, hasError: bool)

  /** One coverage-instrumented workload; `cancelled` is its cancellation scope. */
  datatype Service = Service(
    name: string,
    image: string,
    jarAddrList: seq<string>,
    pods: seq<Pod>,
    errorMessage: string,
    isDelete: bool,
    cancelled: bool)

  // ---------------------------------------------------------------------------
  // getServiceByDeploy

  datatype EnvVar = EnvVar(name: string, value: string)
  datatype Container = Container(name: string, image: string, env: seq<EnvVar>)
  /** The parts of an apps/v1 Deployment that the agent reads. */
  datatype Deployment = Deployment(labels: map<string, string>, containers: seq<Container>)
  /** The parts of a core/v1 Pod that the agent reads. */
  datatype K8sPod = K8sPod(name: string, podIP: string, containerNames: seq<string>)

  /** The instrumentation marker: either environment switch set to "true". */
  predicate IsMarker(e: EnvVar) {
    (e.name == "OPEN_JACOCO_AGENT" && e.value == "true")
    || (e.name == "SOURCECOV_ENABLED" && e.value == "true")
  }

  predicate HasMarker(c: Container) {
    exists j :: 0 <= j < |c.env| && IsMarker(c.env[j])
  }

  /** The image the container scan ends up with: the `break` leaves only the loop over
      one container's environment, so a later marked container overrides an earlier one. */
  function MarkedImage(cs: seq<Container>): string {
    if |cs| == 0 then ""
    else if HasMarker(cs[|cs| - 1]) then cs[|cs| - 1].image
    else MarkedImage(cs[..|cs| - 1])
  }

  /** MarkedImage is the image of the last marked container, and "" when none is marked. */
  lemma {:induction false} MarkedImageIsLastMarked(cs: seq<Container>)
    ensures (forall i :: 0 <= i < |cs| ==> !HasMarker(cs[i])) ==> MarkedImage(cs) == ""
    ensures forall i :: 0 <= i < |cs| && HasMarker(cs[i])
                        && (forall j :: i < j < |cs| ==> !HasMarker(cs[j]))
                        ==> MarkedImage(cs) == cs[i].image
  {
    if |cs| > 0 {
      var init := cs[..|cs| - 1];
      MarkedImageIsLastMarked(init);
      assert forall i :: 0 <= i < |init| ==> init[i] == cs[i];
    }
  }

  /** The service a Deployment describes: named after its "app" label, with the image of
      the last marked container and one healthy Pod per listed pod. */
  function ServiceOf(labels: map<string, string>, image: string, pods: seq<K8sPod>): (s: Service)
    requires forall i :: 0 <= i < |pods| ==> |pods[i].containerNames| > 0
  {
    Service(Lookup(labels, "app"), image, [], PodsOf(pods), "", false, false)
  }

  function PodsOf(pods: seq<K8sPod>): (r: seq<Pod>)
    requires forall i :: 0 <= i < |pods| ==> |pods[i].containerNames| > 0
    ensures |r| == |pods|
    ensures forall i :: 0 <= i < |pods| ==>
      r[i] == Pod(pods[i].podIP, pods[i].name, pods[i].containerNames[0], "", false)
  {
    if |pods| == 0 then []
    else PodsOf(pods[..|pods| - 1])
         + [Pod(pods[|pods| - 1].podIP, pods[|pods| - 1].name, pods[|pods| - 1].containerNames[0], "", false)]
  }

  /** getServiceByDeploy.  `podList` is the outcome of listing the pods labelled
      `app=<name>` (nil deployment: `None`).  The source indexes each pod's first
      container, so every listed pod must have one. */
  method GetServiceByDeploy(deploy: Option<Deployment>, podList: Result<seq<K8sPod>>) returns (svc: Option<Service>)
    requires podList.Ok? ==> forall i :: 0 <= i < |podList.value| ==> |podList.value[i].containerNames| > 0
    ensures deploy.None? ==> svc.None?
    ensures deploy.Some? ==>
      svc == if MarkedImage(deploy.value.containers) == "" || podList.Err? then None
             else Some(ServiceOf(deploy.value.labels, MarkedImage(deploy.value.containers), podList.value))
  {
    if deploy.None? {
      return None;
    }
    var cs := deploy.value.containers;
    var image := "";
    var i := 0;
    while i < |cs|
      invariant 0 <= i <= |cs|
      invariant image == MarkedImage(cs[..i])
    {
      var env := cs[i].env;
      var k := 0;
      while k < |env|
        invariant 0 <= k <= |env|
        invariant forall j :: 0 <= j < k ==> !IsMarker(env[j])
      {
        if env[k].name == "OPEN_JACOCO_AGENT" && env[k].value == "true" {
          image := cs[i].image;
          break;
        }
        if env[k].name == "SOURCECOV_ENABLED" && env[k].value == "true" {
          image := cs[i].image;
          break;
        }
        k := k + 1;
      }
      assert cs[..i + 1][..i] == cs[..i];
      i := i + 1;
    }
    assert cs[..i] == cs;
    if image == "" {
      return None;
    }
    if podList.Err? {
      return None;
    }
    var listed := podList.value;
    var pods: seq<Pod> := [];
    var n := 0;
    while n < |listed|
      invariant 0 <= n <= |listed|
      invariant pods == PodsOf(listed[..n])
    {
      pods := pods + [Pod(listed[n].podIP, listed[n].name, listed[n].containerNames[0], "", false)];
      assert listed[..n + 1][..n] == listed[..n];
      n := n + 1;
    }
    assert listed[..n] == listed;
    svc := Some(Service(Lookup(deploy.value.labels, "app"), image, [], pods, "", false, false));
  }

  // ---------------------------------------------------------------------------
  // getServiceJarPackage

  /** One path visited by filepath.Walk; `failed` when Walk reports an error for it. */
  datatype WalkEntry = WalkEntry(path: string, isDir: bool, failed: bool)

  predicate IsJar(e: WalkEntry) {
    !e.failed && !e.isDir && HasSuffix(e.path, ".jar")
  }

  /** The Walk callback: keep, in visiting order, the non-directory paths ending in ".jar". */
  function JarPaths(entries: seq<WalkEntry>): (r: seq<string>)
    ensures |r| <= |entries|
    ensures forall k :: 0 <= k < |r| ==> HasSuffix(r[k], ".jar")
    ensures forall i :: 0 <= i < |entries| && IsJar(entries[i]) ==> entries[i].path in r
    ensures forall k :: 0 <= k < |r| ==> exists i :: 0 <= i < |entries| && IsJar(entries[i]) && entries[i].path == r[k]
  {
    if |entries| == 0 then []
    else
      var rest := JarPaths(entries[1..]);
      assert forall i :: 1 <= i < |entries| ==> entries[i] == entries[1..][i - 1];
      if IsJar(entries[0]) then [entries[0].path] + rest else rest
  }

  /** The visiting order is kept: the paths of a walk split in two are the paths of the
      first part followed by those of the second. */
  lemma {:induction false} JarPathsAppend(a: seq<WalkEntry>, b: seq<WalkEntry>)
    ensures JarPaths(a + b) == JarPaths(a) + JarPaths(b)
  {
    if |a| > 0 {
      assert (a + b)[1..] == a[1..] + b;
      JarPathsAppend(a[1..], b);
    } else {
      assert a + b == b;
    }
  }

  /** What getServiceJarPackage comes to: the jar list or an error, or the index out of
      range panic of reading the first pod of a service that has none. */
  datatype JarScan = Scanned(jars: Result<seq<string>>) | NoPodPanic

  /** getServiceJarPackage: make the service's temp directory (`tempDir`, keyed by service
      name, gives its failure), copy "/app" out of the first pod (`copyApp`, keyed by pod
      name, gives the walked copy or the copy's failure) and keep its jars.  The first pod
      is read only once the temp directory exists. */
  function GetServiceJarPackage(svc: Service, tempDir: string -> Option<string>,
                                copyApp: string -> Result<seq<WalkEntry>>): (r: JarScan)
    ensures r.NoPodPanic? <==> tempDir(svc.name).None? && |svc.pods| == 0
    ensures r.Scanned? && r.jars.Err? <==>
      tempDir(svc.name).Some? || (|svc.pods| > 0 && copyApp(svc.pods[0].podName).Err?)
    ensures r.Scanned? && r.jars.Ok? ==> forall k :: 0 <= k < |r.jars.value| ==> HasSuffix(r.jars.value[k], ".jar")
    ensures r.Scanned? && r.jars.Ok? ==>
      |svc.pods| > 0 && copyApp(svc.pods[0].podName).Ok? && r.jars.value == JarPaths(copyApp(svc.pods[0].podName).value)
  {
    if tempDir(svc.name).Some? then Scanned(Err(tempDir(svc.name).value))
    else if |svc.pods| == 0 then NoPodPanic
    else
      match copyApp(svc.pods[0].podName)
      case Err(e) => Scanned(Err(e))
      case Ok(entries) => Scanned(Ok(JarPaths(entries)))
  }

  // ---------------------------------------------------------------------------
  // getPrefix and stripPathShortcuts

  /** getPrefix: strip every leading "/". */
  function GetPrefix(file: string): (r: string)
    ensures |r| <= |file| && r == file[|file| - |r|..]
    ensures !HasPrefix(r, "/")
    ensures forall i :: 0 <= i < |file| - |r| ==> file[i] == '/'
  {
    TrimLeft(file, '/')
  }

  /** True of a string made of whole "../" units. */
  predicate IsDotDotRun(p: string)
    decreases |p|
  {
    p == "" || (HasPrefix(p, "../") && IsDotDotRun(p[3..]))
  }

  /** What the trimming loop of stripPathShortcuts leaves: every leading "../" removed. */
  function TrimDotDot(s: string): string
    decreases |s|
  {
    if HasPrefix(s, "../") then TrimDotDot(s[3..]) else s
  }

  lemma {:induction false} TrimDotDotShape(s: string)
    ensures var t := TrimDotDot(s);
      !HasPrefix(t, "../") && |t| <= |s| && s == s[..|s| - |t|] + t && IsDotDotRun(s[..|s| - |t|])
    decreases |s|
  {
    if HasPrefix(s, "../") {
      TrimDotDotShape(s[3..]);
      var t := TrimDotDot(s);
      var p := s[..|s| - |t|];
      assert p[3..] == s[3..][..|s[3..]| - |t|];
      assert HasPrefix(p, "../");
    } else {
      assert s[..|s| - |s|] == "";
    }
  }

  /** The value stripPathShortcuts returns for a path that path.Clean turned into `cleaned`. */
  function StripSpec(cleaned: string): string {
    var t := TrimDotDot(cleaned);
    var u := if t == "." || t == ".." then "" else t;
    if |u| > 0 && u[0] == '/' then u[1..] else u
  }

  /** stripPathShortcuts: the result is a suffix of the cleaned path, is never "." or
      ".." (unless the trimmed path was "/." or "/..", which path.Clean never yields),
      and loses at most one "/" besides the leading "../" units. */
  lemma StripSpecProperties(cleaned: string)
    ensures var r := StripSpec(cleaned); var t := TrimDotDot(cleaned);
      && |r| <= |cleaned| && r == cleaned[|cleaned| - |r|..]
      && (t != "/." && t != "/.." ==> r != "." && r != "..")
      && (r == t || "/" + r == t || (r == "" && (t == "." || t == "..")))
      && !HasPrefix(t, "../")
  {
    TrimDotDotShape(cleaned);
    var t := TrimDotDot(cleaned);
    var r := StripSpec(cleaned);
    assert t == cleaned[|cleaned| - |t|..];
    if t == "." || t == ".." {
      assert r == "" == cleaned[|cleaned|..];
    } else if |t| > 0 && t[0] == '/' {
      assert r == t[1..] && "/" + r == t;
      assert r == cleaned[|cleaned| - |r|..];
    } else {
      assert r == t;
    }
  }

  /** stripPathShortcuts.  `clean` stands for path.Clean. */
  method StripPathShortcuts(p: string, clean: string -> string) returns (r: string)
    ensures r == StripSpec(clean(p))
  {
    var newPath := clean(p);
    var trimmed := TrimPrefix(newPath, "../");
    while trimmed != newPath
      invariant trimmed == TrimPrefix(newPath, "../")
      invariant TrimDotDot(newPath) == TrimDotDot(clean(p))
      decreases |newPath|
    {
      newPath := trimmed;
      trimmed := TrimPrefix(newPath, "../");
    }
    if newPath == "." || newPath == ".." {
      newPath := "";
    }
    if |newPath| > 0 && newPath[0] == '/' {
      return newPath[1..];
    }
    return newPath;
  }

  // ---------------------------------------------------------------------------
  // unTarAll

  /** A tar header and its contents.  unTarAll tells only directories and symlinks apart;
      every other entry type (regular file, hard link, device, FIFO) is written as a
      regular file from its contents, so `TarFile` stands for all of them. */
  datatype TarEntry =
    | TarDir(name: string)
    | TarFile(name: string, content: string)
    | TarSymlink(name: string, linkname: string)

  /** The entries tarReader.Next yields, and the error (other than io.EOF) it reports
      after them, if any. */
  datatype TarStream = TarStream(entries: seq<TarEntry>, readError: Option<string>)

  datatype FsNode = DirNode | FileNode(content: string) | LinkNode(target: string)

  /** A filesystem after some extraction steps, with the error that stopped it. */
  datatype Untar = Untar(fs: map<string, FsNode>, err: Option<string>)

  const Corrupted: string := "tar contents corrupted"

  /** Where an accepted entry lands: `join` stands for filepath.Join. */
  function Destination(destDir: string, prefix: string, e: TarEntry, join: (string, string) -> string): string
    requires HasPrefix(e.name, prefix)
  {
    join(destDir, e.name[|prefix|..])
  }

  function NodeOf(e: TarEntry): FsNode {
    match e
    case TarDir(_) => DirNode
    case TarFile(_, content) => FileNode(content)
    case TarSymlink(_, linkname) => LinkNode(linkname)
  }

  /** One loop iteration for entry number `i`; `ioError(i)` is the failure, if any, of the
      directory, symlink or file operations for that entry, chosen per entry and not
      derived from what `fs` already holds. */
  function UntarStep(fs: map<string, FsNode>, e: TarEntry, i: nat, destDir: string, prefix: string,
                     join: (string, string) -> string, ioError: nat -> Option<string>): Untar
  {
    if !HasPrefix(e.name, prefix) then Untar(fs, Some(Corrupted))
    else if ioError(i).Some? then Untar(fs, ioError(i))
    else Untar(fs[Destination(destDir, prefix, e, join) := NodeOf(e)], None)
  }

  /** The state after the first `n` entries (or after the one that failed). */
  function UntarPrefix(s: TarStream, n: nat, destDir: string, prefix: string, join: (string, string) -> string,
                       ioError: nat -> Option<string>, fs0: map<string, FsNode>): Untar
    requires n <= |s.entries|
  {
    if n == 0 then Untar(fs0, None)
    else
      var u := UntarPrefix(s, n - 1, destDir, prefix, join, ioError, fs0);
      if u.err.Some? then u else UntarStep(u.fs, s.entries[n - 1], n - 1, destDir, prefix, join, ioError)
  }

  function UntarAll(s: TarStream, destDir: string, prefix: string, join: (string, string) -> string,
                    ioError: nat -> Option<string>, fs0: map<string, FsNode>): Untar
  {
    var u := UntarPrefix(s, |s.entries|, destDir, prefix, join, ioError, fs0);
    if u.err.None? && s.readError.Some? then Untar(u.fs, s.readError) else u
  }

  /** unTarAll over an abstract filesystem `fs0`. */
  method UnTarAll(s: TarStream, destDir: string, prefix: string, join: (string, string) -> string,
                  ioError: nat -> Option<string>, fs0: map<string, FsNode>) returns (fs: map<string, FsNode>, err: Option<string>)
    ensures Untar(fs, err) == UntarAll(s, destDir, prefix, join, ioError, fs0)
  {
    fs := fs0;
    var i := 0;
    while i < |s.entries|
      invariant 0 <= i <= |s.entries|
      invariant UntarPrefix(s, i, destDir, prefix, join, ioError, fs0) == Untar(fs, None)
    {
      var header := s.entries[i];
      if !HasPrefix(header.name, prefix) {
        err := Some(Corrupted);
        UntarStopsAt(s, i + 1, destDir, prefix, join, ioError, fs0);
        return;
      }
      var destFileName := join(destDir, header.name[|prefix|..]);
      if ioError(i).Some? {
        err := ioError(i);
        UntarStopsAt(s, i + 1, destDir, prefix, join, ioError, fs0);
        return;
      }
      match header {
        case TarDir(_) =>
          fs := fs[destFileName := DirNode];
        case TarSymlink(_, linkname) =>
          fs := fs[destFileName := LinkNode(linkname)];
        case TarFile(_, content) =>
          fs := fs[destFileName := FileNode(content)];
      }
      i := i + 1;
    }
    err := s.readError;
  }

  /** Once an entry has failed, later entries change nothing. */
  lemma {:induction false} UntarStopsAt(s: TarStream, k: nat, destDir: string, prefix: string,
                                        join: (string, string) -> string, ioError: nat -> Option<string>,
                                        fs0: map<string, FsNode>)
    requires k <= |s.entries|
    requires UntarPrefix(s, k, destDir, prefix, join, ioError, fs0).err.Some?
    ensures UntarAll(s, destDir, prefix, join, ioError, fs0) == UntarPrefix(s, k, destDir, prefix, join, ioError, fs0)
    decreases |s.entries| - k
  {
    if k < |s.entries| {
      UntarStopsAt(s, k + 1, destDir, prefix, join, ioError, fs0);
    }
  }

  /** Extraction aborts as corrupted at the first entry lacking the prefix, keeping what the
      entries before it wrote. */
  lemma CorruptEntryAborts(s: TarStream, k: nat, destDir: string, prefix: string,
                           join: (string, string) -> string, ioError: nat -> Option<string>,
                           fs0: map<string, FsNode>)
    requires k < |s.entries| && !HasPrefix(s.entries[k].name, prefix)
    requires UntarPrefix(s, k, destDir, prefix, join, ioError, fs0).err.None?
    ensures UntarAll(s, destDir, prefix, join, ioError, fs0)
            == Untar(UntarPrefix(s, k, destDir, prefix, join, ioError, fs0).fs, Some(Corrupted))
  {
    UntarStopsAt(s, k + 1, destDir, prefix, join, ioError, fs0);
  }

  /** Every key the extracted map gains or changes is `join(destDir, name[len(prefix):])`
      of an entry carrying the prefix, holding that entry's node: a symlink keeps the
      header's link name as it is.  Keys are the joined names, not resolved paths. */
  lemma {:induction false} UntarWritesOnlyDestinations(s: TarStream, n: nat, destDir: string, prefix: string,
                                                       join: (string, string) -> string, ioError: nat -> Option<string>,
                                                       fs0: map<string, FsNode>, path: string)
    requires n <= |s.entries|
    requires var fs := UntarPrefix(s, n, destDir, prefix, join, ioError, fs0).fs;
      path in fs && (path !in fs0 || fs[path] != fs0[path])
    ensures exists i :: (0 <= i < n && HasPrefix(s.entries[i].name, prefix)
                         && path == Destination(destDir, prefix, s.entries[i], join)
                         && UntarPrefix(s, n, destDir, prefix, join, ioError, fs0).fs[path] == NodeOf(s.entries[i]))
  {
    if n > 0 {
      var u := UntarPrefix(s, n - 1, destDir, prefix, join, ioError, fs0);
      var e := s.entries[n - 1];
      if u.err.None? && HasPrefix(e.name, prefix) && ioError(n - 1).None?
         && path == Destination(destDir, prefix, e, join) {
      } else {
        UntarWritesOnlyDestinations(s, n - 1, destDir, prefix, join, ioError, fs0, path);
      }
    }
  }

  /** Nothing keeps an entry inside `destDir`: a first entry named prefix + "../" + x is
      written to join(destDir, "../" + x), whatever `join` makes of it. */
  lemma NoContainmentCheck(prefix: string, x: string, destDir: string, join: (string, string) -> string,
                           ioError: nat -> Option<string>, fs0: map<string, FsNode>, content: string)
    requires ioError(0).None?
    ensures var s := TarStream([TarFile(prefix + "../" + x, content)], None);
      UntarAll(s, destDir, prefix, join, ioError, fs0).err.None?
      && join(destDir, "../" + x) in UntarAll(s, destDir, prefix, join, ioError, fs0).fs
      && UntarAll(s, destDir, prefix, join, ioError, fs0).fs[join(destDir, "../" + x)] == FileNode(content)
  {
    var name := prefix + "../" + x;
    assert name[..|prefix|] == prefix;
    assert name[|prefix|..] == "../" + x;
    var s := TarStream([TarFile(name, content)], None);
    assert UntarPrefix(s, 0, destDir, prefix, join, ioError, fs0) == Untar(fs0, None);
    assert UntarPrefix(s, 1, destDir, prefix, join, ioError, fs0)
        == Untar(fs0[join(destDir, "../" + x) := FileNode(content)], None);
    assert UntarAll(s, destDir, prefix, join, ioError, fs0)
        == Untar(fs0[join(destDir, "../" + x) := FileNode(content)], None);
  }
}
