/** The sandbox service: start, get, pause, resume and delete over the cluster. */
module Sandbox {
  import opened Options
  import opened Cluster

  // ------------------------------------------------------------------ what each operation does

  /** A rendered manifest. */
  datatype Manifest =
    | AccountManifest(name: string, sandboxId: string)
    | ClaimManifest(name: string, claim: Claim)
    | JobManifest(name: string, job: Job)
    | ServiceManifest(name: string, sandboxId: string)
    | IngressManifest(name: string, sandboxId: string)
    | UnknownManifest(kind: string)

  /** What rendering answers: manifests, a failed evaluation (a RuntimeError), or any other exception,
      such as a timeout. */
  datatype Rendering = Rendered(manifests: seq<Manifest>) | EvalFailed | RenderRaised

  /** How a start ends; `Escaped` is any exception but a RuntimeError. */
  datatype Outcome = Started | RuntimeRaised | Escaped

  /** Apply one manifest: existing accounts and claims are kept, a job must be new, services and
      ingresses may fail. */
  function Apply(c: Cluster, m: Manifest, faults: Faults): (Cluster, Outcome) {
    match m
    case AccountManifest(n, id) =>
      var (accounts, status) := Created(c.accounts, n, id, faults, CreateAccount(n));
      (c.(accounts := accounts), if status == None || status == Some(CONFLICT) then Started else Escaped)
    case ClaimManifest(n, claim) =>
      var (claims, status) := Created(c.claims, n, claim, faults, CreateClaim(n));
      (c.(claims := claims), if status == None || status == Some(CONFLICT) then Started else Escaped)
    case JobManifest(n, job) =>
      var (jobs, status) := Created(c.jobs, n, job, faults, CreateJob(n));
      (c.(jobs := jobs), if status == None then Started else RuntimeRaised)
    case ServiceManifest(n, id) =>
      (c.(services := Created(c.services, n, id, faults, CreateService(n)).0), Started)
    case IngressManifest(n, id) =>
      (c.(ingresses := Created(c.ingresses, n, id, faults, CreateIngress(n)).0), Started)
    case UnknownManifest(_) => (c, Started)
  }

  /** Apply manifests in order, up to the first that raises. */
  function Start(c: Cluster, ms: seq<Manifest>, faults: Faults): (Cluster, Outcome)
    decreases |ms|
  {
    if ms == [] then (c, Started)
    else
      var (c', outcome) := Apply(c, ms[0], faults);
      if outcome != Started then (c', outcome) else Start(c', ms[1..], faults)
  }

  /** Render and apply; rendering itself may fail. */
  function Launch(c: Cluster, rendered: Rendering, faults: Faults): (Cluster, Outcome) {
    match rendered
    case Rendered(manifests) => Start(c, manifests, faults)
    case EvalFailed => (c, RuntimeRaised)
    case RenderRaised => (c, Escaped)
  }

  /** Delete job, service and ingress of a sandbox, whatever fails on the way. */
  function Teardown(c: Cluster, id: string, faults: Faults): Cluster {
    var n := JobName(id);
    c.(jobs := Deleted(c.jobs, n, faults, DeleteJob(n)).0,
       services := Deleted(c.services, n, faults, DeleteService(n)).0,
       ingresses := Deleted(c.ingresses, n, faults, DeleteIngress(n)).0)
  }

  function Recreate(c: Cluster, id: string, rendered: Rendering, faults: Faults): (Cluster, Outcome) {
    Launch(Teardown(c, id, faults), rendered, faults)
  }

  /** The claim belongs to the sandbox and carries no preserve label. */
  predicate Disposable(claim: Claim, id: string) {
    claim.sandboxId == Some(id) && claim.preserve != Some("true")
  }

  function ClaimsKept(claims: map<string, Claim>, id: string, faults: Faults): map<string, Claim> {
    map k | k in claims && (ListClaims in faults || DeleteClaim(k) in faults || !Disposable(claims[k], id)) :: claims[k]
  }

  function DeleteSandbox(c: Cluster, id: string, faults: Faults): Cluster {
    var n := AccountName(id);
    Teardown(c, id, faults).(
      accounts := Deleted(c.accounts, n, faults, DeleteAccount(n)).0,
      claims := ClaimsKept(c.claims, id, faults))
  }

  function SetSuspended(c: Cluster, id: string, suspended: bool, faults: Faults): Cluster
    requires JobName(id) in c.jobs
  {
    var n := JobName(id);
    if c.jobs[n].suspended == suspended || ReplaceJob(n) in faults then c
    else c.(jobs := c.jobs[n := c.jobs[n].(suspended := suspended)])
  }

  /** What reading the job answers: none when it is there. */
  function ReadJobStatus(c: Cluster, id: string, faults: Faults): Option<int> {
    var call := ReadJob(JobName(id));
    if call in faults then Some(faults[call])
    else if JobName(id) !in c.jobs then Some(NOT_FOUND)
    else None
  }

  predicate ClaimReadable(c: Cluster, id: string, faults: Faults) {
    ReadClaim(ClaimName(id)) !in faults && ClaimName(id) in c.claims
  }

  // ------------------------------------------------------------------ status

  datatype Status = Starting | Running | Paused | Error

  datatype Phase = PodRunning | PodPending | PodFailed | PodUnknown | PodSucceeded | NoPhase

  function PhaseStatus(phase: Phase, waiting: bool): Status {
    match phase
    case PodRunning => if waiting then Starting else Running
    case PodPending => Starting
    case PodFailed => Error
    case PodUnknown => Error
    case PodSucceeded => Paused
    case NoPhase => Starting
  }

  /** A pod as listed for the job, or only whether the job has failed pods. */
  datatype Pod = Pod(phase: Phase, waiting: bool) | NoPod(failed: bool)

  datatype Info = Info(id: string, status: Status, sessionKey: Option<string>, exposed: bool)

  function JobInfo(job: Job, pod: Pod): Option<Info> {
    if job.sandboxId == "" then None
    else
      var status := if job.suspended then Paused
                    else if pod.Pod? then PhaseStatus(pod.phase, pod.waiting)
                    else if pod.failed then Error else Starting;
      Some(if status == Running then Info(job.sandboxId, status, job.sessionKey, true)
           else Info(job.sandboxId, status, None, false))
  }

  datatype GetResult = Found(info: Info) | Missing | Raised

  function AfterRecreate(id: string, key: string, outcome: Outcome): GetResult {
    match outcome
    case Started => Found(Info(id, Starting, Some(key), false))
    case RuntimeRaised => Missing
    case Escaped => Raised
  }

  /** Get a sandbox; a missing job whose workspace exists is recreated. */
  function GetSandbox(c: Cluster, id: string, pod: Pod, rendered: Rendering, key: string, faults: Faults)
    : (Cluster, GetResult)
  {
    var status := ReadJobStatus(c, id, faults);
    if status == Some(NOT_FOUND) then
      if !ClaimReadable(c, id, faults) then (c, Missing)
      else
        var (c', outcome) := Recreate(c, id, rendered, faults);
        (c', AfterRecreate(id, key, outcome))
    else if status.Some? then (c, Missing)
    else
      var info := JobInfo(c.jobs[JobName(id)], pod);
      (c, if info.Some? then Found(info.value) else Missing)
  }

  /** Resume answers whether the sandbox runs again; none when an exception escapes. */
  function ResumeSandbox(c: Cluster, id: string, rendered: Rendering, faults: Faults): (Cluster, Option<bool>) {
    var status := ReadJobStatus(c, id, faults);
    if status == Some(NOT_FOUND) then
      if !ClaimReadable(c, id, faults) then (c, Some(false))
      else
        var (c', outcome) := Recreate(c, id, rendered, faults);
        (c', if outcome == Escaped then None else Some(outcome == Started))
    else if status.Some? then (c, None)
    else (SetSuspended(c, id, false, faults),
          Some(!c.jobs[JobName(id)].suspended || ReplaceJob(JobName(id)) !in faults))
  }

  function PauseSandbox(c: Cluster, id: string, faults: Faults): (Cluster, Option<bool>) {
    var status := ReadJobStatus(c, id, faults);
    if status == Some(NOT_FOUND) then (c, Some(false))
    else if status.Some? then (c, None)
    else (SetSuspended(c, id, true, faults),
          Some(c.jobs[JobName(id)].suspended || ReplaceJob(JobName(id)) !in faults))
  }

  // ------------------------------------------------------------------ the service

  class Kubernetes {
    var jobs: map<string, Job>
    var services: map<string, string>
    var ingresses: map<string, string>
    var accounts: map<string, string>
    var claims: map<string, Claim>

    function View(): Cluster
      reads this
    {
      Cluster(jobs, services, ingresses, accounts, claims)
    }

    /** Answer the injected status, 404 for an unknown name, or none and the object is gone. */
    method Delete<V>(m: map<string, V>, n: string, faults: Faults, call: Call)
      returns (left: map<string, V>, status: Option<int>)
      ensures (left, status) == Deleted(m, n, faults, call)
    {
      left, status := m, None;
      if call in faults {
        status := Some(faults[call]);
      } else if n !in m {
        status := Some(NOT_FOUND);
      } else {
        left := m - {n};
      }
    }

    method DeleteJobNamed(n: string, faults: Faults) returns (status: Option<int>)
      modifies this`jobs
      ensures (jobs, status) == Deleted(old(jobs), n, faults, DeleteJob(n))
    {
      jobs, status := Delete(jobs, n, faults, DeleteJob(n));
    }

    method DeleteServiceNamed(n: string, faults: Faults) returns (status: Option<int>)
      modifies this`services
      ensures (services, status) == Deleted(old(services), n, faults, DeleteService(n))
    {
      services, status := Delete(services, n, faults, DeleteService(n));
    }

    method DeleteIngressNamed(n: string, faults: Faults) returns (status: Option<int>)
      modifies this`ingresses
      ensures (ingresses, status) == Deleted(old(ingresses), n, faults, DeleteIngress(n))
    {
      ingresses, status := Delete(ingresses, n, faults, DeleteIngress(n));
    }

    method DeleteAccountNamed(n: string, faults: Faults) returns (status: Option<int>)
      modifies this`accounts
      ensures (accounts, status) == Deleted(old(accounts), n, faults, DeleteAccount(n))
    {
      accounts, status := Delete(accounts, n, faults, DeleteAccount(n));
    }

    method DeleteClaimNamed(n: string, faults: Faults) returns (status: Option<int>)
      modifies this`claims
      ensures (claims, status) == Deleted(old(claims), n, faults, DeleteClaim(n))
    {
      claims, status := Delete(claims, n, faults, DeleteClaim(n));
    }

    /** The claims labelled with a sandbox id, in some order. */
    method ListClaimsOf(id: string) returns (names: seq<string>)
      ensures forall n :: n in names <==> n in claims && claims[n].sandboxId == Some(id)
    {
      names := [];
      var todo := claims.Keys;
      while todo != {}
        invariant todo <= claims.Keys
        invariant forall n :: n in names <==> n in claims && n !in todo && claims[n].sandboxId == Some(id)
      {
        var n :| n in todo;
        if claims[n].sandboxId == Some(id) {
          names := names + [n];
        }
        todo := todo - {n};
      }
    }
  }

  class SandboxService {
    const k8s: Kubernetes

    constructor (k8s: Kubernetes)
      ensures this.k8s == k8s
    {
      this.k8s := k8s;
    }

    method Delete(id: string, faults: Faults) returns (deleted: bool)
      modifies k8s
      ensures k8s.View() == DeleteSandbox(old(k8s.View()), id, faults)
      ensures deleted <==> JobName(id) in old(k8s.jobs) && DeleteJob(JobName(id)) !in faults
    {
      var status := k8s.DeleteJobNamed(JobName(id), faults);
      deleted := status.None?;
      status := k8s.DeleteServiceNamed(JobName(id), faults);
      status := k8s.DeleteIngressNamed(JobName(id), faults);
      status := k8s.DeleteAccountNamed(AccountName(id), faults);
      DeleteClaims(id, faults);
    }

    method DeleteClaims(id: string, faults: Faults)
      modifies k8s`claims
      ensures k8s.claims == ClaimsKept(old(k8s.claims), id, faults)
    {
      if ListClaims in faults {
        return;
      }
      var names := k8s.ListClaimsOf(id);
      ghost var before := k8s.claims;
      for i := 0 to |names|
        invariant k8s.claims == map k | k in before &&
          (k !in names[..i] || DeleteClaim(k) in faults || !Disposable(before[k], id)) :: before[k]
      {
        var n := names[i];
        assert names[..i + 1] == names[..i] + [n];
        if n !in k8s.claims || k8s.claims[n].preserve == Some("true") {
          continue;
        }
        var _ := k8s.DeleteClaimNamed(n, faults);
      }
      assert names[..|names|] == names;
    }

    method SetJobSuspended(id: string, suspended: bool, faults: Faults) returns (ok: bool)
      requires JobName(id) in k8s.jobs
      modifies k8s`jobs
      ensures k8s.View() == SetSuspended(old(k8s.View()), id, suspended, faults)
      ensures ok <==> old(k8s.jobs)[JobName(id)].suspended == suspended || ReplaceJob(JobName(id)) !in faults
    {
      var n := JobName(id);
      var job := k8s.jobs[n];
      if job.suspended == suspended {
        return true;
      }
      if ReplaceJob(n) in faults {
        return false;
      }
      k8s.jobs := k8s.jobs[n := job.(suspended := suspended)];
      return true;
    }

    method Pause(id: string, faults: Faults) returns (paused: Option<bool>)
      modifies k8s`jobs
      ensures (k8s.View(), paused) == PauseSandbox(old(k8s.View()), id, faults)
    {
      var status := ReadJobStatus(k8s.View(), id, faults);
      if status == Some(NOT_FOUND) {
        return Some(false);
      }
      if status.Some? {
        return None;
      }
      var ok := SetJobSuspended(id, true, faults);
      return Some(ok);
    }

    method ApplyManifest(m: Manifest, faults: Faults) returns (outcome: Outcome)
      modifies k8s
      ensures (k8s.View(), outcome) == Apply(old(k8s.View()), m, faults)
    {
      outcome := Started;
      match m
      case AccountManifest(n, id) =>
        var (accounts, status) := Created(k8s.accounts, n, id, faults, CreateAccount(n));
        k8s.accounts := accounts;
        if status.Some? && status != Some(CONFLICT) {
          outcome := Escaped;
        }
      case ClaimManifest(n, claim) =>
        var (claims, status) := Created(k8s.claims, n, claim, faults, CreateClaim(n));
        k8s.claims := claims;
        if status.Some? && status != Some(CONFLICT) {
          outcome := Escaped;
        }
      case JobManifest(n, job) =>
        var (jobs, status) := Created(k8s.jobs, n, job, faults, CreateJob(n));
        k8s.jobs := jobs;
        if status.Some? {
          outcome := RuntimeRaised;
        }
      case ServiceManifest(n, id) =>
        k8s.services := Created(k8s.services, n, id, faults, CreateService(n)).0;
      case IngressManifest(n, id) =>
        k8s.ingresses := Created(k8s.ingresses, n, id, faults, CreateIngress(n)).0;
      case UnknownManifest(_) =>
    }

    method StartSandbox(rendered: Rendering, faults: Faults) returns (outcome: Outcome)
      modifies k8s
      ensures (k8s.View(), outcome) == Launch(old(k8s.View()), rendered, faults)
    {
      if !rendered.Rendered? {
        return if rendered.EvalFailed? then RuntimeRaised else Escaped;
      }
      var ms := rendered.manifests;
      for i := 0 to |ms|
        invariant Start(old(k8s.View()), ms, faults) == Start(k8s.View(), ms[i..], faults)
      {
        assert ms[i..][0] == ms[i] && ms[i..][1..] == ms[i + 1..];
        outcome := ApplyManifest(ms[i], faults);
        if outcome != Started {
          return;
        }
      }
      return Started;
    }

    method RecreateSandbox(id: string, rendered: Rendering, faults: Faults) returns (outcome: Outcome)
      modifies k8s
      ensures (k8s.View(), outcome) == Recreate(old(k8s.View()), id, rendered, faults)
    {
      var status := k8s.DeleteJobNamed(JobName(id), faults);
      status := k8s.DeleteServiceNamed(JobName(id), faults);
      status := k8s.DeleteIngressNamed(JobName(id), faults);
      outcome := StartSandbox(rendered, faults);
    }

    method Get(id: string, pod: Pod, rendered: Rendering, key: string, faults: Faults) returns (r: GetResult)
      modifies k8s
      ensures (k8s.View(), r) == GetSandbox(old(k8s.View()), id, pod, rendered, key, faults)
    {
      var status := ReadJobStatus(k8s.View(), id, faults);
      if status == Some(NOT_FOUND) {
        if !ClaimReadable(k8s.View(), id, faults) {
          return Missing;
        }
        var outcome := RecreateSandbox(id, rendered, faults);
        return AfterRecreate(id, key, outcome);
      }
      if status.Some? {
        return Missing;
      }
      var info := JobInfo(k8s.jobs[JobName(id)], pod);
      return if info.Some? then Found(info.value) else Missing;
    }

    method Resume(id: string, rendered: Rendering, faults: Faults) returns (resumed: Option<bool>)
      modifies k8s
      ensures (k8s.View(), resumed) == ResumeSandbox(old(k8s.View()), id, rendered, faults)
    {
      var status := ReadJobStatus(k8s.View(), id, faults);
      if status == Some(NOT_FOUND) {
        if !ClaimReadable(k8s.View(), id, faults) {
          return Some(false);
        }
        var outcome := RecreateSandbox(id, rendered, faults);
        return if outcome == Escaped then None else Some(outcome == Started);
      }
      if status.Some? {
        return None;
      }
      var ok := SetJobSuspended(id, false, faults);
      return Some(ok);
    }
  }
}
