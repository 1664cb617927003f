/** The Kubernetes objects of sandboxes, and the API calls that create and delete them.

    A call may fail with an injected status; otherwise it answers 404 or 409 from the state.  A
    failed call changes nothing. */
module Cluster {
  import opened Options

  datatype Job = Job(sandboxId: string, sessionKey: Option<string>, suspended: bool)

  datatype Claim = Claim(sandboxId: Option<string>, preserve: Option<string>, created: Option<real>)

  const NOT_FOUND := 404
  const CONFLICT := 409

  /** One API call within an operation; every operation makes each call at most once. */
  datatype Call =
    | ReadJob(name: string) | CreateJob(name: string) | ReplaceJob(name: string) | DeleteJob(name: string)
    | CreateService(name: string) | DeleteService(name: string)
    | CreateIngress(name: string) | DeleteIngress(name: string)
    | CreateAccount(name: string) | DeleteAccount(name: string)
    | ReadClaim(name: string) | CreateClaim(name: string) | DeleteClaim(name: string) | ListClaims
    | ListSandboxes | ListConversations

  /** The calls that fail, with their status. */
  type Faults = map<Call, int>

  datatype Cluster = Cluster(
    jobs: map<string, Job>,
    services: map<string, string>,    // name -> sandbox id label
    ingresses: map<string, string>,
    accounts: map<string, string>,
    claims: map<string, Claim>)

  function Created<V>(m: map<string, V>, name: string, v: V, faults: Faults, call: Call)
    : (map<string, V>, Option<int>)
  {
    if call in faults then (m, Some(faults[call]))
    else if name in m then (m, Some(CONFLICT))
    else (m[name := v], None)
  }

  function Deleted<V>(m: map<string, V>, name: string, faults: Faults, call: Call): (map<string, V>, Option<int>) {
    if call in faults then (m, Some(faults[call]))
    else if name !in m then (m, Some(NOT_FOUND))
    else (m - {name}, None)
  }

  // ------------------------------------------------------------------ names

  const JOB_PREFIX := "oh-sandbox-"

  function JobName(id: string): string { JOB_PREFIX + id }

  function AccountName(id: string): string { "sandbox-" + id }

  function ClaimName(id: string): string { "oh-workspace-" + id }

  predicate HasPrefix(s: string, prefix: string) {
    |prefix| <= |s| && s[..|prefix|] == prefix
  }

  predicate HasSuffix(s: string, suffix: string) {
    |suffix| <= |s| && s[|s| - |suffix|..] == suffix
  }

  /** The names the sandbox templates and both services agree on. */
  lemma NamesSpelled(id: string)
    ensures JobName(id) == "oh-sandbox-" + id
    ensures AccountName(id) == "sandbox-" + id
    ensures ClaimName(id) == "oh-workspace-" + id
  {
  }

  /** Names of one kind determine the id. */
  lemma NamesInjective(a: string, b: string)
    ensures JobName(a) == JobName(b) ==> a == b
    ensures AccountName(a) == AccountName(b) ==> a == b
    ensures ClaimName(a) == ClaimName(b) ==> a == b
  {
    assert JobName(a)[11..] == a && JobName(b)[11..] == b;
    assert AccountName(a)[8..] == a && AccountName(b)[8..] == b;
    assert ClaimName(a)[13..] == a && ClaimName(b)[13..] == b;
  }

  /** No workspace claim carries the prefix of the other resources. */
  lemma ClaimNameIsNoSandboxName(id: string)
    ensures !HasPrefix(ClaimName(id), JOB_PREFIX)
  {
    assert ClaimName(id)[3] == 'w' && JOB_PREFIX[3] == 's';
  }
}
