/** On-disk layout under the fixed work directory (agent/core/addr.go and
    agent/conf/conf.go).  `GenSvcJarImageTempDir` creates a temporary directory and
    is not part of this module. */
module Addr {
  import opened Strings

  const WorkDir: string := "/jacoco/work"
  const ProjectDirName: string := "_project_"

  /** `<root>/<planID>`: a run's workspace. */
  function GenPlanDumpExecDir(planId: nat): (r: string)
    ensures HasPrefix(r, WorkDir + "/")
    ensures forall i :: |WorkDir| + 1 <= i < |r| ==> IsDigit(r[i])
  {
    WorkDir + "/" + Decimal(planId)
  }

  /** `<root>/<planID>/<service>`: a service's dump directory within a run. */
  function GenSvcDumpExecDir(planId: nat, svcName: string): (r: string)
    ensures r == GenPlanDumpExecDir(planId) + "/" + svcName
    ensures HasPrefix(r, WorkDir + "/")
  {
    WorkDir + "/" + Decimal(planId) + "/" + svcName
  }

  /** `<root>/service/<service>`: a service's artifact cache. */
  function GenSvcJarDir(svcName: string): (r: string)
    ensures HasPrefix(r, WorkDir + "/service/") && r[|WorkDir + "/service/"|..] == svcName
  {
    WorkDir + "/service/" + svcName
  }

  /** `<root>/class/<service>`: a service's extracted class/source tree. */
  function GenSvcClassDir(svcName: string): (r: string)
    ensures HasPrefix(r, WorkDir + "/class/") && r[|WorkDir + "/class/"|..] == svcName
  {
    WorkDir + "/class/" + svcName
  }

  /** `<root>/class/_project_`: the project-wide class/source tree. */
  function GenProjectClassDir(): (r: string)
    ensures r == GenSvcClassDir(ProjectDirName)
  {
    WorkDir + "/class/_project_"
  }

  /** Distinct runs never share a workspace. */
  lemma PlanDirInjective(p: nat, q: nat)
    requires GenPlanDumpExecDir(p) == GenPlanDumpExecDir(q)
    ensures p == q
  {
    var n := |WorkDir + "/"|;
    assert Decimal(p) == GenPlanDumpExecDir(p)[n..];
    assert Decimal(q) == GenPlanDumpExecDir(q)[n..];
    DecimalInjective(p, q);
  }

  /** Two runs' service dump directories coincide only for the same run and service. */
  lemma SvcDumpDirInjective(p: nat, s: string, q: nat, t: string)
    requires GenSvcDumpExecDir(p, s) == GenSvcDumpExecDir(q, t)
    ensures p == q && s == t
  {
    var n := |WorkDir + "/"|;
    var a, b := GenSvcDumpExecDir(p, s), GenSvcDumpExecDir(q, t);
    var dp, dq := Decimal(p), Decimal(q);
    // The first '/' after the root ends the plan number, so both numbers have one length.
    assert a[n + |dp|] == '/' && b[n + |dq|] == '/';
    assert forall i :: n <= i < n + |dp| ==> IsDigit(a[i]);
    assert forall i :: n <= i < n + |dq| ==> IsDigit(b[i]);
    assert |dp| == |dq|;
    assert dp == a[n..n + |dp|] == b[n..n + |dq|] == dq;
    DecimalInjective(p, q);
    assert s == a[n + |dp| + 1..] == b[n + |dq| + 1..] == t;
  }

  /** A run workspace, being all digits after the root, is never a cache directory. */
  lemma PlanDirIsNoCacheDir(p: nat, s: string)
    ensures GenPlanDumpExecDir(p) != GenSvcJarDir(s)
    ensures GenPlanDumpExecDir(p) != GenSvcClassDir(s)
    ensures GenPlanDumpExecDir(p) != GenProjectClassDir()
  {
    var n := |WorkDir + "/"|;
    assert GenSvcJarDir(s)[n] == 's';
    assert GenSvcClassDir(s)[n] == 'c';
    assert GenProjectClassDir()[n] == 'c';
  }
}
