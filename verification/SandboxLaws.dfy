/** Laws of the sandbox service and the lifecycle sweeps over whole runs. */
module SandboxLaws {
  import opened Options
  import opened Cluster
  import opened Sandbox
  import opened Lifecycle

  // ------------------------------------------------------------------ runs

  /** Everything either service does to the cluster, with any API failures.  Recreating a sandbox
      sleeps between tearing down and starting, so both halves are also operations of their own. */
  datatype Op =
    | OpGet(id: string, pod: Pod, rendered: Rendering, key: string, faults: Faults)
    | OpStart(id: string, rendered: Rendering, faults: Faults)
    | OpTeardown(id: string, faults: Faults)
    | OpPause(id: string, faults: Faults)
    | OpResume(id: string, rendered: Rendering, faults: Faults)
    | OpDelete(id: string, faults: Faults)
    | OpSweepOrphans(inp: Inputs, faults: Faults)
    | OpSweepClaims(now: real, maxAgeDays: real, faults: Faults)

  function Do(c: Cluster, op: Op): Cluster {
    match op
    case OpGet(id, pod, rendered, key, faults) => GetSandbox(c, id, pod, rendered, key, faults).0
    case OpStart(id, rendered, faults) => Launch(c, rendered, faults).0
    case OpTeardown(id, faults) => Teardown(c, id, faults)
    case OpPause(id, faults) => PauseSandbox(c, id, faults).0
    case OpResume(id, rendered, faults) => ResumeSandbox(c, id, rendered, faults).0
    case OpDelete(id, faults) => DeleteSandbox(c, id, faults)
    case OpSweepOrphans(inp, faults) => SweepOrphans(c, inp, faults)
    case OpSweepClaims(now, maxAgeDays, faults) => SweepOldClaims(c, now, maxAgeDays, faults)
  }

  function Run(c: Cluster, ops: seq<Op>): Cluster
    decreases |ops|
  {
    if ops == [] then c else Run(Do(c, ops[0]), ops[1..])
  }

  // ------------------------------------------------------------------ what callers are told

  /** For a readable job, get changes nothing and tells the status of job and pod: the session key and
      the URLs are given exactly while an unsuspended job's pod runs with no container waiting. */
  lemma GetTells(c: Cluster, id: string, pod: Pod, rendered: Rendering, key: string, faults: Faults)
    requires JobName(id) in c.jobs && ReadJob(JobName(id)) !in faults
    ensures var (c', result) := GetSandbox(c, id, pod, rendered, key, faults);
            var job := c.jobs[JobName(id)];
            && c' == c
            && (job.sandboxId == "" ==> result == Missing)
            && (job.sandboxId != "" ==>
                  && result.Found? && result.info.id == job.sandboxId
                  && var info, live := result.info, !job.suspended && pod.Pod?;
                     var ready := live && pod.phase == PodRunning && !pod.waiting;
                     && info.exposed == ready
                     && info.sessionKey == (if ready then job.sessionKey else None)
                     && (info.status == Running <==> ready)
                     && (info.status == Paused <==> job.suspended || (live && pod.phase == PodSucceeded))
                     && (info.status == Error <==>
                           || (live && (pod.phase == PodFailed || pod.phase == PodUnknown))
                           || (!job.suspended && pod.NoPod? && pod.failed))
                     && (info.status == Starting <==>
                           || (live && (pod.phase == PodPending || pod.phase == NoPhase))
                           || (live && pod.phase == PodRunning && pod.waiting)
                           || (!job.suspended && pod.NoPod? && !pod.failed)))
  {
  }

  /** Without a readable job: nothing, unless the job is missing and the workspace is there; then a fresh
      start tells a starting sandbox with its new key, a failed one nothing, and other exceptions
      escape. */
  lemma GetTellsMissing(c: Cluster, id: string, pod: Pod, rendered: Rendering, key: string, faults: Faults)
    requires JobName(id) !in c.jobs || ReadJob(JobName(id)) in faults
    ensures var (c', result) := GetSandbox(c, id, pod, rendered, key, faults);
            var failed := ReadJob(JobName(id)) in faults && faults[ReadJob(JobName(id))] != 404;
            if failed || ClaimName(id) !in c.claims || ReadClaim(ClaimName(id)) in faults then
              c' == c && result == Missing
            else
              var (started, outcome) := Launch(Teardown(c, id, faults), rendered, faults);
              && c' == started
              && (outcome == Started ==> result == Found(Info(id, Starting, Some(key), false)))
              && (outcome == RuntimeRaised ==> result == Missing)
              && (outcome == Escaped ==> result == Raised)
  {
  }

  /** Pause sets the suspension of the sandbox's own job and nothing else; a missing job answers no, a
      failed read escapes, and a failed write leaves all as it was. */
  lemma PauseTells(c: Cluster, id: string, faults: Faults)
    ensures var (c', answer) := PauseSandbox(c, id, faults);
            var n := JobName(id);
            if ReadJob(n) in faults then c' == c && answer == (if faults[ReadJob(n)] == 404 then Some(false) else None)
            else if n !in c.jobs then c' == c && answer == Some(false)
            else if c.jobs[n].suspended then c' == c && answer == Some(true)
            else if ReplaceJob(n) in faults then c' == c && answer == Some(false)
            else answer == Some(true) && c' == c.(jobs := c.jobs[n := c.jobs[n].(suspended := true)])
  {
  }

  /** Resume clears it the same way; a missing job is started afresh exactly if the workspace can be read. */
  lemma ResumeTells(c: Cluster, id: string, rendered: Rendering, faults: Faults)
    ensures var (c', answer) := ResumeSandbox(c, id, rendered, faults);
            var n := JobName(id);
            if ReadJob(n) in faults && faults[ReadJob(n)] != 404 then c' == c && answer == None
            else if ReadJob(n) in faults || n !in c.jobs then
              if ClaimName(id) !in c.claims || ReadClaim(ClaimName(id)) in faults then c' == c && answer == Some(false)
              else
                var (started, outcome) := Launch(Teardown(c, id, faults), rendered, faults);
                c' == started && answer == (if outcome == Escaped then None else Some(outcome == Started))
            else if !c.jobs[n].suspended then c' == c && answer == Some(true)
            else if ReplaceJob(n) in faults then c' == c && answer == Some(false)
            else answer == Some(true) && c' == c.(jobs := c.jobs[n := c.jobs[n].(suspended := false)])
  {
  }

  /** Which manifests stop a start: a job that cannot be created or is there already, and an account or
      claim whose creation fails with anything but a conflict. */
  lemma ApplyStopsIff(c: Cluster, m: Manifest, faults: Faults)
    ensures var outcome := Apply(c, m, faults).1;
            && (outcome == RuntimeRaised <==> m.JobManifest? && (m.name in c.jobs || CreateJob(m.name) in faults))
            && (outcome == Escaped <==>
                  || (m.AccountManifest? && CreateAccount(m.name) in faults && faults[CreateAccount(m.name)] != 409)
                  || (m.ClaimManifest? && CreateClaim(m.name) in faults && faults[CreateClaim(m.name)] != 409))
  {
  }

  /** Applying adds the manifest's object if its name is free and its call does not fail, and changes
      nothing else. */
  lemma ApplyAdds(c: Cluster, m: Manifest, faults: Faults)
    ensures var c' := Apply(c, m, faults).0;
            match m
            case AccountManifest(n, id) =>
              c' == (if n in c.accounts || CreateAccount(n) in faults then c else c.(accounts := c.accounts[n := id]))
            case ClaimManifest(n, claim) =>
              c' == (if n in c.claims || CreateClaim(n) in faults then c else c.(claims := c.claims[n := claim]))
            case JobManifest(n, job) =>
              c' == (if n in c.jobs || CreateJob(n) in faults then c else c.(jobs := c.jobs[n := job]))
            case ServiceManifest(n, id) =>
              c' == (if n in c.services || CreateService(n) in faults then c else c.(services := c.services[n := id]))
            case IngressManifest(n, id) =>
              c' == (if n in c.ingresses || CreateIngress(n) in faults then c
                     else c.(ingresses := c.ingresses[n := id]))
            case UnknownManifest(_) => c' == c
  {
  }

  /** A start goes through the manifests in order and stops at the first that raises, with its outcome;
      whether rendering failed or raised is told apart. */
  lemma {:induction false} StartInOrder(c: Cluster, ms: seq<Manifest>, m: Manifest, faults: Faults)
    ensures Launch(c, Rendered(ms + [m]), faults)
         == (var (c', outcome) := Launch(c, Rendered(ms), faults);
             if outcome == Started then Apply(c', m, faults) else (c', outcome))
    ensures Launch(c, Rendered([]), faults) == (c, Started)
    ensures Launch(c, EvalFailed, faults) == (c, RuntimeRaised) && Launch(c, RenderRaised, faults) == (c, Escaped)
    decreases |ms|
  {
    var all := ms + [m];
    if ms == [] {
      assert all == [m] && all[1..] == [];
      assert Start(Apply(c, m, faults).0, [], faults) == (Apply(c, m, faults).0, Started);
      assert Start(c, all, faults) == Apply(c, m, faults);
    } else {
      assert all[0] == ms[0] && all[1..] == ms[1..] + [m];
      StartInOrder(Apply(c, ms[0], faults).0, ms[1..], m, faults);
    }
  }

  // ------------------------------------------------------------------ workspace survival

  /** Starting only adds: whatever is there stays as it is. */
  lemma {:induction false} StartKeeps(c: Cluster, ms: seq<Manifest>, faults: Faults)
    ensures var c' := Start(c, ms, faults).0;
            && (forall n | n in c.claims :: n in c'.claims && c'.claims[n] == c.claims[n])
            && (forall n | n in c.jobs :: n in c'.jobs && c'.jobs[n] == c.jobs[n])
    decreases |ms|
  {
    if ms != [] {
      ApplyKeeps(c, ms[0], faults);
      StartKeeps(Apply(c, ms[0], faults).0, ms[1..], faults);
    }
  }

  lemma ApplyKeeps(c: Cluster, m: Manifest, faults: Faults)
    ensures var c' := Apply(c, m, faults).0;
            && (forall n | n in c.claims :: n in c'.claims && c'.claims[n] == c.claims[n])
            && (forall n | n in c.jobs :: n in c'.jobs && c'.jobs[n] == c.jobs[n])
  {
    match m
    case JobManifest(_, _) =>
    case ClaimManifest(_, _) =>
    case _ =>
  }

  lemma LaunchKeeps(c: Cluster, rendered: Rendering, faults: Faults)
    ensures forall n | n in c.claims ::
      n in Launch(c, rendered, faults).0.claims && Launch(c, rendered, faults).0.claims[n] == c.claims[n]
  {
    if rendered.Rendered? {
      StartKeeps(c, rendered.manifests, faults);
    }
  }

  /** The preserved workspace of a sandbox. */
  predicate HasWorkspace(c: Cluster, id: string, claim: Claim) {
    ClaimName(id) in c.claims && c.claims[ClaimName(id)] == claim
  }

  lemma OpKeepsWorkspace(c: Cluster, op: Op, id: string, claim: Claim)
    requires HasWorkspace(c, id, claim) && claim.preserve == Some("true")
    ensures HasWorkspace(Do(c, op), id, claim)
  {
    match op
    case OpGet(other, _, rendered, _, faults) => LaunchKeeps(Teardown(c, other, faults), rendered, faults);
    case OpStart(_, rendered, faults) => LaunchKeeps(c, rendered, faults);
    case OpResume(other, rendered, faults) => LaunchKeeps(Teardown(c, other, faults), rendered, faults);
    case OpSweepClaims(now, maxAgeDays, faults) => OldWorkspacesAreKept(c, id, now, maxAgeDays, faults);
    case OpSweepOrphans(inp, faults) =>
    case OpDelete(_, _) =>
    case _ =>
  }

  /** Workspace survival: no run of either service, whatever fails, deletes or changes a sandbox's
      claim labelled to be preserved. */
  lemma {:induction false} WorkspaceSurvives(c: Cluster, ops: seq<Op>, id: string, claim: Claim)
    requires HasWorkspace(c, id, claim) && claim.preserve == Some("true")
    ensures HasWorkspace(Run(c, ops), id, claim)
    decreases |ops|
  {
    if ops != [] {
      OpKeepsWorkspace(c, ops[0], id, claim);
      WorkspaceSurvives(Do(c, ops[0]), ops[1..], id, claim);
    }
  }

  // ------------------------------------------------------------------ isolation by id

  predicate ManifestFor(m: Manifest, id: string) {
    match m
    case AccountManifest(n, owner) => n == AccountName(id) && owner == id
    case ClaimManifest(n, claim) => n == ClaimName(id) && claim.sandboxId == Some(id)
    case JobManifest(n, job) => n == JobName(id) && job.sandboxId == id
    case ServiceManifest(n, owner) => n == JobName(id) && owner == id
    case IngressManifest(n, owner) => n == JobName(id) && owner == id
    case UnknownManifest(_) => true
  }

  /** The renderer names and labels everything after the requested id. */
  predicate RenderedFor(rendered: Rendering, id: string) {
    rendered.Rendered? ==> forall m | m in rendered.manifests :: ManifestFor(m, id)
  }

  /** An operation of the sandbox service on one id. */
  predicate OpOn(op: Op, id: string) {
    match op
    case OpGet(i, _, rendered, _, _) => i == id && RenderedFor(rendered, id)
    case OpStart(i, rendered, _) => i == id && RenderedFor(rendered, id)
    case OpTeardown(i, _) => i == id
    case OpPause(i, _) => i == id
    case OpResume(i, rendered, _) => i == id && RenderedFor(rendered, id)
    case OpDelete(i, _) => i == id
    case OpSweepOrphans(_, _) => false
    case OpSweepClaims(_, _, _) => false
  }

  predicate SameAt<V(==)>(a: map<string, V>, b: map<string, V>, n: string) {
    (n in a <==> n in b) && (n in a ==> a[n] == b[n])
  }

  ghost predicate SameOutside<V(!new)>(a: map<string, V>, b: map<string, V>, name: string) {
    forall n | n != name :: (n in a <==> n in b) && (n in a ==> a[n] == b[n])
  }

  /** Claims of other sandboxes, and unlabelled ones, are the same in both. */
  ghost predicate SameClaimsOutside(a: map<string, Claim>, b: map<string, Claim>, id: string) {
    forall n :: (n in a && a[n].sandboxId != Some(id)) || (n in b && b[n].sandboxId != Some(id)) ==>
      n in a && n in b && a[n] == b[n]
  }

  /** Nothing outside the id's own names and labels differs. */
  ghost predicate OnlyTouches(a: Cluster, b: Cluster, id: string) {
    && SameOutside(a.jobs, b.jobs, JobName(id))
    && SameOutside(a.services, b.services, JobName(id))
    && SameOutside(a.ingresses, b.ingresses, JobName(id))
    && SameOutside(a.accounts, b.accounts, AccountName(id))
    && SameClaimsOutside(a.claims, b.claims, id)
  }

  lemma TouchesTransitive(a: Cluster, b: Cluster, c: Cluster, id: string)
    requires OnlyTouches(a, b, id) && OnlyTouches(b, c, id)
    ensures OnlyTouches(a, c, id)
  {
  }

  lemma {:induction false} StartTouches(c: Cluster, ms: seq<Manifest>, faults: Faults, id: string)
    requires forall m | m in ms :: ManifestFor(m, id)
    ensures OnlyTouches(c, Start(c, ms, faults).0, id)
    decreases |ms|
  {
    if ms != [] {
      assert ManifestFor(ms[0], id);
      var c' := Apply(c, ms[0], faults).0;
      ApplyTouches(c, ms[0], faults, id);
      StartTouches(c', ms[1..], faults, id);
      TouchesTransitive(c, c', Start(c', ms[1..], faults).0, id);
    }
  }

  lemma ApplyTouches(c: Cluster, m: Manifest, faults: Faults, id: string)
    requires ManifestFor(m, id)
    ensures OnlyTouches(c, Apply(c, m, faults).0, id)
  {
    match m
    case JobManifest(_, _) =>
    case ClaimManifest(_, _) =>
    case _ =>
  }

  lemma SuspendTouches(c: Cluster, id: string, suspended: bool, faults: Faults)
    requires JobName(id) in c.jobs
    ensures OnlyTouches(c, SetSuspended(c, id, suspended, faults), id)
  {
  }

  lemma TeardownTouches(c: Cluster, id: string, faults: Faults)
    ensures OnlyTouches(c, Teardown(c, id, faults), id)
  {
  }

  lemma RecreateTouches(c: Cluster, id: string, rendered: Rendering, faults: Faults)
    requires RenderedFor(rendered, id)
    ensures OnlyTouches(c, Recreate(c, id, rendered, faults).0, id)
  {
    TeardownTouches(c, id, faults);
    if rendered.Rendered? {
      var torn := Teardown(c, id, faults);
      StartTouches(torn, rendered.manifests, faults, id);
      TouchesTransitive(c, torn, Recreate(c, id, rendered, faults).0, id);
    }
  }

  lemma DeleteTouches(c: Cluster, id: string, faults: Faults)
    ensures OnlyTouches(c, DeleteSandbox(c, id, faults), id)
  {
  }

  lemma PauseTouches(c: Cluster, id: string, faults: Faults)
    ensures OnlyTouches(c, PauseSandbox(c, id, faults).0, id)
  {
    if JobName(id) in c.jobs {
      SuspendTouches(c, id, true, faults);
    }
  }

  lemma ResumeTouches(c: Cluster, id: string, rendered: Rendering, faults: Faults)
    requires RenderedFor(rendered, id)
    ensures OnlyTouches(c, ResumeSandbox(c, id, rendered, faults).0, id)
  {
    if ReadJobStatus(c, id, faults).None? {
      SuspendTouches(c, id, false, faults);
    } else {
      RecreateTouches(c, id, rendered, faults);
    }
  }

  lemma GetTouches(c: Cluster, id: string, pod: Pod, rendered: Rendering, key: string, faults: Faults)
    requires RenderedFor(rendered, id)
    ensures OnlyTouches(c, GetSandbox(c, id, pod, rendered, key, faults).0, id)
  {
    RecreateTouches(c, id, rendered, faults);
  }

  lemma LaunchTouches(c: Cluster, id: string, rendered: Rendering, faults: Faults)
    requires RenderedFor(rendered, id)
    ensures OnlyTouches(c, Launch(c, rendered, faults).0, id)
  {
    if rendered.Rendered? {
      StartTouches(c, rendered.manifests, faults, id);
    }
  }

  lemma OpTouches(c: Cluster, op: Op, id: string)
    requires OpOn(op, id)
    ensures OnlyTouches(c, Do(c, op), id)
  {
    var c' := Do(c, op);
    assert OnlyTouches(c, c', id) by {
      match op
      case OpGet(_, pod, rendered, key, faults) => GetTouches(c, id, pod, rendered, key, faults);
      case OpStart(_, rendered, faults) => LaunchTouches(c, id, rendered, faults);
      case OpTeardown(_, faults) => TeardownTouches(c, id, faults);
      case OpPause(_, faults) => PauseTouches(c, id, faults);
      case OpResume(_, rendered, faults) => ResumeTouches(c, id, rendered, faults);
      case OpDelete(_, faults) => DeleteTouches(c, id, faults);
    }
  }

  /** Isolation: any run of operations on one id leaves every object of every other id as it was. */
  lemma {:induction false} RunsAreIsolated(c: Cluster, ops: seq<Op>, id: string)
    requires forall op | op in ops :: OpOn(op, id)
    ensures OnlyTouches(c, Run(c, ops), id)
    ensures forall other | other != id ::
      && SameAt(c.jobs, Run(c, ops).jobs, JobName(other))
      && SameAt(c.services, Run(c, ops).services, JobName(other))
      && SameAt(c.ingresses, Run(c, ops).ingresses, JobName(other))
      && SameAt(c.accounts, Run(c, ops).accounts, AccountName(other))
    decreases |ops|
  {
    if ops != [] {
      assert OpOn(ops[0], id);
      var c' := Do(c, ops[0]);
      OpTouches(c, ops[0], id);
      RunsAreIsolated(c', ops[1..], id);
      TouchesTransitive(c, c', Run(c', ops[1..]), id);
    }
    forall other | other != id ensures JobName(other) != JobName(id) && AccountName(other) != AccountName(id) {
      NamesInjective(other, id);
    }
  }

  // ------------------------------------------------------------------ delete

  /** Deletion removes every object of the id that the API lets go of, except preserved claims. */
  lemma DeleteIsExact(c: Cluster, id: string, faults: Faults, claim: string)
    ensures var c', n, a := DeleteSandbox(c, id, faults), JobName(id), AccountName(id);
            && (n in c'.jobs <==> n in c.jobs && DeleteJob(n) in faults)
            && (n in c'.services <==> n in c.services && DeleteService(n) in faults)
            && (n in c'.ingresses <==> n in c.ingresses && DeleteIngress(n) in faults)
            && (a in c'.accounts <==> a in c.accounts && DeleteAccount(a) in faults)
            && (claim in c'.claims <==>
                  && claim in c.claims
                  && (c.claims[claim].sandboxId != Some(id) || c.claims[claim].preserve == Some("true")
                      || ListClaims in faults || DeleteClaim(claim) in faults))
  {
  }

  // ------------------------------------------------------------------ delete, then recover

  function JobCount(ms: seq<Manifest>): nat {
    if ms == [] then 0 else (if ms[0].JobManifest? then 1 else 0) + JobCount(ms[1..])
  }

  predicate Present(c: Cluster, m: Manifest) {
    match m
    case AccountManifest(n, _) => n in c.accounts
    case ClaimManifest(n, _) => n in c.claims
    case JobManifest(n, job) => n in c.jobs && c.jobs[n] == job
    case ServiceManifest(n, _) => n in c.services
    case IngressManifest(n, _) => n in c.ingresses
    case UnknownManifest(_) => true
  }

  lemma {:induction false} PresentStays(c: Cluster, ms: seq<Manifest>, faults: Faults, m: Manifest)
    requires Present(c, m)
    ensures Present(Start(c, ms, faults).0, m)
    decreases |ms|
  {
    if ms != [] {
      ApplyKeepsPresent(c, ms[0], faults, m);
      PresentStays(Apply(c, ms[0], faults).0, ms[1..], faults, m);
    }
  }

  lemma ApplyKeepsPresent(c: Cluster, applied: Manifest, faults: Faults, m: Manifest)
    requires Present(c, m)
    ensures Present(Apply(c, applied, faults).0, m)
  {
    match applied
    case AccountManifest(_, _) =>
    case ClaimManifest(_, _) =>
    case JobManifest(_, _) =>
    case _ =>
  }

  lemma AppliedIsPresent(c: Cluster, m: Manifest, id: string)
    requires ManifestFor(m, id) && (m.JobManifest? ==> JobName(id) !in c.jobs)
    ensures Present(Apply(c, m, map[]).0, m) && Apply(c, m, map[]).1 == Started
    ensures !m.JobManifest? ==> Apply(c, m, map[]).0.jobs == c.jobs
  {
    match m
    case JobManifest(_, _) =>
    case _ =>
  }

  /** Without failures and with the job's name free, starting succeeds and everything is there. */
  lemma {:induction false} StartSucceeds(c: Cluster, ms: seq<Manifest>, id: string)
    requires forall m | m in ms :: ManifestFor(m, id)
    requires JobCount(ms) == 0 || (JobCount(ms) == 1 && JobName(id) !in c.jobs)
    ensures Start(c, ms, map[]).1 == Started
    ensures forall m | m in ms :: Present(Start(c, ms, map[]).0, m)
    decreases |ms|
  {
    if ms != [] {
      assert ManifestFor(ms[0], id);
      var c' := Apply(c, ms[0], map[]).0;
      AppliedIsPresent(c, ms[0], id);
      StartSucceeds(c', ms[1..], id);
      PresentStays(c', ms[1..], map[], ms[0]);
    }
  }

  /** The standard rendering: one job, with its account, claim and service. */
  predicate Complete(ms: seq<Manifest>, id: string) {
    && RenderedFor(Rendered(ms), id)
    && JobCount(ms) == 1
    && (exists m | m in ms :: m.JobManifest?)
    && (exists m | m in ms :: m.AccountManifest?)
    && (exists m | m in ms :: m.ServiceManifest?)
  }

  /** The sandbox's job, service and account are back under its names, and its claim is untouched. */
  predicate Recovered(before: Cluster, after: Cluster, id: string) {
    && JobName(id) in after.jobs && JobName(id) in after.services && AccountName(id) in after.accounts
    && SameAt(before.claims, after.claims, ClaimName(id))
  }

  lemma RecreateRecovers(c: Cluster, id: string, ms: seq<Manifest>)
    requires Complete(ms, id) && ClaimName(id) in c.claims
    ensures Recreate(c, id, Rendered(ms), map[]).1 == Started
    ensures Recovered(c, Recreate(c, id, Rendered(ms), map[]).0, id)
  {
    var torn := Teardown(c, id, map[]);
    StartSucceeds(torn, ms, id);
    StartKeeps(torn, ms, map[]);
    var job :| job in ms && job.JobManifest?;
    var account :| account in ms && account.AccountManifest?;
    var service :| service in ms && service.ServiceManifest?;
    assert ManifestFor(job, id) && ManifestFor(account, id) && ManifestFor(service, id);
    assert Present(Start(torn, ms, map[]).0, job) && Present(Start(torn, ms, map[]).0, account)
        && Present(Start(torn, ms, map[]).0, service);
  }

  /** Wherever the job is gone, getting or resuming the sandbox brings it back exactly when the
      workspace claim is still there, and otherwise changes nothing. */
  lemma RecoverIff(c: Cluster, id: string, pod: Pod, ms: seq<Manifest>, key: string)
    requires Complete(ms, id) && JobName(id) !in c.jobs
    ensures var (c1, found) := GetSandbox(c, id, pod, Rendered(ms), key, map[]);
            var (c2, resumed) := ResumeSandbox(c, id, Rendered(ms), map[]);
            if ClaimName(id) in c.claims then
              found == Found(Info(id, Starting, Some(key), false)) && resumed == Some(true)
              && Recovered(c, c1, id) && Recovered(c, c2, id)
            else found == Missing && resumed == Some(false) && c1 == c && c2 == c
  {
    if ClaimName(id) in c.claims {
      RecreateRecovers(c, id, ms);
    }
  }

  /** Delete, then recover: after a deletion without failures, get and resume restore the sandbox
      exactly when its workspace was not disposable. */
  lemma DeleteThenRecover(c: Cluster, id: string, pod: Pod, ms: seq<Manifest>, key: string)
    requires Complete(ms, id) && ClaimName(id) in c.claims
    ensures var gone := DeleteSandbox(c, id, map[]);
            var (c1, found) := GetSandbox(gone, id, pod, Rendered(ms), key, map[]);
            var (c2, resumed) := ResumeSandbox(gone, id, Rendered(ms), map[]);
            if !Disposable(c.claims[ClaimName(id)], id) then
              found.Found? && resumed == Some(true) && Recovered(c, c1, id) && Recovered(c, c2, id)
            else found == Missing && resumed == Some(false)
  {
    RecoverIff(DeleteSandbox(c, id, map[]), id, pod, ms, key);
  }

  /** Sweep, then recover: an orphan swept without failures comes back whenever its workspace exists. */
  lemma SweepThenRecover(c: Cluster, inp: Inputs, id: string, pod: Pod, ms: seq<Manifest>, key: string)
    requires Complete(ms, id) && Orphan(inp, id) && ClaimName(id) in c.claims
    ensures var swept := SweepOrphans(c, inp, map[]);
            var (c1, found) := GetSandbox(swept, id, pod, Rendered(ms), key, map[]);
            var (c2, resumed) := ResumeSandbox(swept, id, Rendered(ms), map[]);
            !Exists(swept, id) && found.Found? && resumed == Some(true)
            && Recovered(c, c1, id) && Recovered(c, c2, id)
  {
    SweepIsExact(c, inp, map[], id);
    RecoverIff(SweepOrphans(c, inp, map[]), id, pod, ms, key);
  }

  // ------------------------------------------------------------------ pause and resume

  /** A paused sandbox reports PAUSED and hides its key, whatever its pod does; resuming undoes the pause. */
  lemma PauseThenResume(c: Cluster, id: string, pod: Pod, rendered: Rendering, key: string)
    requires JobName(id) in c.jobs && c.jobs[JobName(id)].sandboxId == id != "" && !c.jobs[JobName(id)].suspended
    ensures var (paused, ok) := PauseSandbox(c, id, map[]);
            && ok == Some(true)
            && GetSandbox(paused, id, pod, rendered, key, map[]) == (paused, Found(Info(id, Paused, None, false)))
            && ResumeSandbox(paused, id, rendered, map[]) == (c, Some(true))
  {
    var n := JobName(id);
    assert c.jobs[n := c.jobs[n].(suspended := true)][n := c.jobs[n]] == c.jobs;
  }
}
