/** The lifecycle service: the orphan sweep and the sweep of old claims. */
module Lifecycle {
  import opened Text
  import opened Cluster
  import opened Sandbox

  // ------------------------------------------------------------------ which sandboxes exist

  function Stripped(names: set<string>): set<string> {
    set n | n in names && HasPrefix(n, JOB_PREFIX) :: n[|JOB_PREFIX|..]
  }

  /** The ids of all jobs, services and ingresses with a sandbox name. */
  function SandboxIds(c: Cluster): set<string> {
    Stripped(c.services.Keys) + Stripped(c.jobs.Keys) + Stripped(c.ingresses.Keys)
  }

  predicate Exists(c: Cluster, id: string) {
    JobName(id) in c.jobs || JobName(id) in c.services || JobName(id) in c.ingresses
  }

  lemma StrippedIff(names: set<string>, id: string)
    ensures id in Stripped(names) <==> JobName(id) in names
  {
    var n := JobName(id);
    assert n[..|JOB_PREFIX|] == JOB_PREFIX && n[|JOB_PREFIX|..] == id;
    if id in Stripped(names) {
      var m :| m in names && HasPrefix(m, JOB_PREFIX) && m[|JOB_PREFIX|..] == id;
      assert m == m[..|JOB_PREFIX|] + m[|JOB_PREFIX|..];
    }
  }

  lemma SandboxIdsIff(c: Cluster, id: string)
    ensures id in SandboxIds(c) <==> Exists(c, id)
  {
    StrippedIff(c.services.Keys, id);
    StrippedIff(c.jobs.Keys, id);
    StrippedIff(c.ingresses.Keys, id);
  }

  // ------------------------------------------------------------------ which sandboxes are orphans

  /** A conversation as the API lists it; an absent field reads as the empty string. */
  datatype Conversation = Conversation(sandboxId: string, sandboxStatus: string, executionStatus: string)

  /** The conversation's sandbox is gone for good. */
  predicate Dead(conv: Conversation) {
    || Upper(conv.sandboxStatus) in {"MISSING", "ERROR", "STOPPED"}
    || Lower(conv.executionStatus) in {"stopped", "error"}
  }

  /** The last-listed conversation of a sandbox. */
  predicate IsLast(convs: seq<Conversation>, i: nat, id: string) {
    i < |convs| && convs[i].sandboxId == id && forall j | i < j < |convs| :: convs[j].sandboxId != id
  }

  datatype Inputs = Inputs(convs: seq<Conversation>, podStarted: map<string, real>, now: real, minAge: real)

  predicate OldEnough(inp: Inputs, id: string) {
    id !in inp.podStarted || (inp.now - inp.podStarted[id]) / 60.0 >= inp.minAge
  }

  /** Old enough, and without a conversation that could still use it.  The empty id is never matched
      with a conversation. */
  predicate Orphan(inp: Inputs, id: string) {
    && OldEnough(inp, id)
    && (id == "" || forall i: nat | i < |inp.convs| && IsLast(inp.convs, i, id) :: Dead(inp.convs[i]))
  }

  /** A conversation counts as dead by its sandbox status MISSING, ERROR or STOPPED, or its execution
      status stopped or error, in any letter case; and by nothing else. */
  lemma DeadIff(conv: Conversation)
    ensures Dead(conv) <==>
      || SameText(conv.sandboxStatus, "MISSING") || SameText(conv.sandboxStatus, "ERROR")
      || SameText(conv.sandboxStatus, "STOPPED")
      || SameText(conv.executionStatus, "stopped") || SameText(conv.executionStatus, "error")
  {
    UpperIs(conv.sandboxStatus, "MISSING");
    UpperIs(conv.sandboxStatus, "ERROR");
    UpperIs(conv.sandboxStatus, "STOPPED");
    LowerIs(conv.executionStatus, "stopped");
    LowerIs(conv.executionStatus, "error");
  }

  /** An orphan's pod did not start within the last `minAge` minutes, and each conversation after which
      none of the same sandbox is listed is dead. */
  lemma OrphanIff(inp: Inputs, id: string)
    ensures Orphan(inp, id) <==>
      && (id in inp.podStarted ==> inp.now - inp.podStarted[id] >= 60.0 * inp.minAge)
      && (id != "" ==>
            forall i: nat | i < |inp.convs| && inp.convs[i].sandboxId == id ::
              || Dead(inp.convs[i])
              || exists j: nat | i < j < |inp.convs| :: inp.convs[j].sandboxId == id)
  {
    if id in inp.podStarted {
      var age := inp.now - inp.podStarted[id];
      assert age / 60.0 >= inp.minAge <==> age >= 60.0 * inp.minAge;
    }
    forall i: nat | i < |inp.convs|
      ensures IsLast(inp.convs, i, id) <==>
                inp.convs[i].sandboxId == id && !exists j: nat | i < j < |inp.convs| :: inp.convs[j].sandboxId == id
    {
    }
  }

  predicate NamesOne(ids: set<string>, n: string) {
    exists id | id in ids :: JobName(id) == n
  }

  /** Delete the compute resources of every sandbox in a set. */
  function SweptMap<V>(m: map<string, V>, ids: set<string>, failed: set<string>): map<string, V> {
    map n | n in m && (n in failed || !NamesOne(ids, n)) :: m[n]
  }

  function JobFaults(c: Cluster, faults: Faults): set<string> {
    set n | n in c.jobs && DeleteJob(n) in faults
  }

  function ServiceFaults(c: Cluster, faults: Faults): set<string> {
    set n | n in c.services && DeleteService(n) in faults
  }

  function IngressFaults(c: Cluster, faults: Faults): set<string> {
    set n | n in c.ingresses && DeleteIngress(n) in faults
  }

  function Swept(c: Cluster, ids: set<string>, faults: Faults): Cluster {
    c.(jobs := SweptMap(c.jobs, ids, JobFaults(c, faults)),
       services := SweptMap(c.services, ids, ServiceFaults(c, faults)),
       ingresses := SweptMap(c.ingresses, ids, IngressFaults(c, faults)))
  }

  function Orphans(c: Cluster, inp: Inputs): set<string> {
    set id | id in SandboxIds(c) && Orphan(inp, id)
  }

  /** Both listings the sweep starts from succeed. */
  predicate Listable(faults: Faults) {
    ListSandboxes !in faults && ListConversations !in faults
  }

  function SweepOrphans(c: Cluster, inp: Inputs, faults: Faults): Cluster {
    if Listable(faults) then Swept(c, Orphans(c, inp), faults) else c
  }

  // ------------------------------------------------------------------ laws of the orphan sweep

  /** Exactly the orphans lose their compute resources, where the API lets go of them; accounts and
      claims are never touched. */
  lemma SweepIsExact(c: Cluster, inp: Inputs, faults: Faults, id: string)
    requires Listable(faults)
    ensures var c', n := SweepOrphans(c, inp, faults), JobName(id);
            && (n in c'.jobs <==> n in c.jobs && (!Orphan(inp, id) || DeleteJob(n) in faults))
            && (n in c'.services <==> n in c.services && (!Orphan(inp, id) || DeleteService(n) in faults))
            && (n in c'.ingresses <==> n in c.ingresses && (!Orphan(inp, id) || DeleteIngress(n) in faults))
            && (n in c'.jobs ==> c'.jobs[n] == c.jobs[n])
            && c'.accounts == c.accounts && c'.claims == c.claims
  {
    SandboxIdsIff(c, id);
    var ids, n := Orphans(c, inp), JobName(id);
    if other :| other in ids && JobName(other) == n {
      NamesInjective(other, id);
    }
  }

  predicate Stuck(c: Cluster, id: string, faults: Faults) {
    || (JobName(id) in c.jobs && DeleteJob(JobName(id)) in faults)
    || (JobName(id) in c.services && DeleteService(JobName(id)) in faults)
    || (JobName(id) in c.ingresses && DeleteIngress(JobName(id)) in faults)
  }

  /** A second pass over the same inputs finds exactly the orphans whose resources the API would not
      let go the first time. */
  lemma SecondPassIff(c: Cluster, inp: Inputs, faults: Faults, id: string)
    requires Listable(faults)
    ensures id in Orphans(SweepOrphans(c, inp, faults), inp) <==> Orphan(inp, id) && Stuck(c, id, faults)
  {
    SweepIsExact(c, inp, faults, id);
    SandboxIdsIff(SweepOrphans(c, inp, faults), id);
  }

  /** One pass without failures is a fixpoint: a second pass deletes nothing. */
  lemma OnePassIsEnough(c: Cluster, inp: Inputs, again: Faults)
    ensures var once := SweepOrphans(c, inp, map[]);
            Orphans(once, inp) == {} && SweepOrphans(once, inp, again) == once
  {
    var once := SweepOrphans(c, inp, map[]);
    forall id ensures id !in Orphans(once, inp) {
      SecondPassIff(c, inp, map[], id);
    }
    assert Orphans(once, inp) == {};
    NothingSwept(once, again);
  }

  lemma NothingSwept(c: Cluster, faults: Faults)
    ensures Swept(c, {}, faults) == c
  {
    assert SweptMap(c.jobs, {}, JobFaults(c, faults)) == c.jobs;
    assert SweptMap(c.services, {}, ServiceFaults(c, faults)) == c.services;
    assert SweptMap(c.ingresses, {}, IngressFaults(c, faults)) == c.ingresses;
  }

  // ------------------------------------------------------------------ old claims

  predicate Expired(name: string, claim: Claim, now: real, maxAgeDays: real) {
    && HasPrefix(name, JOB_PREFIX) && HasSuffix(name, "-workspace")
    && claim.created.Some? && (now - claim.created.value) / 86400.0 > maxAgeDays
  }

  function SweepOldClaims(c: Cluster, now: real, maxAgeDays: real, faults: Faults): Cluster {
    if maxAgeDays <= 0.0 || ListClaims in faults then c
    else c.(claims := map n | n in c.claims &&
      (DeleteClaim(n) in faults || !Expired(n, c.claims[n], now, maxAgeDays)) :: c.claims[n])
  }

  /** A claim goes exactly if the limit is positive, its name has the prefix and the suffix, it was created
      more than the limit of days ago, and neither listing nor its deletion fails. */
  lemma OldClaimsAreExact(c: Cluster, now: real, maxAgeDays: real, faults: Faults, n: string)
    ensures var c' := SweepOldClaims(c, now, maxAgeDays, faults);
            && (n in c'.claims <==>
                  && n in c.claims
                  && !(&& maxAgeDays > 0.0 && ListClaims !in faults && DeleteClaim(n) !in faults
                       && HasPrefix(n, "oh-sandbox-") && HasSuffix(n, "-workspace")
                       && c.claims[n].created.Some?
                       && now - c.claims[n].created.value > 86400.0 * maxAgeDays))
            && (n in c'.claims ==> c'.claims[n] == c.claims[n])
            && c'.(claims := c.claims) == c
  {
    if n in c.claims && c.claims[n].created.Some? {
      var age := now - c.claims[n].created.value;
      assert age / 86400.0 > maxAgeDays <==> age > 86400.0 * maxAgeDays;
    }
  }

  /** However old it is, a sandbox's workspace claim survives the sweep meant for it: the sweep looks
      for a name no workspace has. */
  lemma OldWorkspacesAreKept(c: Cluster, id: string, now: real, maxAgeDays: real, faults: Faults)
    requires ClaimName(id) in c.claims
    ensures var c' := SweepOldClaims(c, now, maxAgeDays, faults);
            ClaimName(id) in c'.claims && c'.claims[ClaimName(id)] == c.claims[ClaimName(id)]
  {
    ClaimNameIsNoSandboxName(id);
  }

  // ------------------------------------------------------------------ the service

  /** Conversations by sandbox id; later ones replace earlier ones. */
  function ByLast(convs: seq<Conversation>): map<string, Conversation> {
    if convs == [] then map[]
    else
      var m, last := ByLast(convs[..|convs| - 1]), convs[|convs| - 1];
      if last.sandboxId != "" then m[last.sandboxId := last] else m
  }

  lemma {:induction false} ByLastIff(convs: seq<Conversation>, id: string)
    ensures id in ByLast(convs) ==> id != "" && exists i: nat | i < |convs| :: IsLast(convs, i, id)
    ensures id != "" ==> forall i: nat | i < |convs| && IsLast(convs, i, id) ::
              id in ByLast(convs) && ByLast(convs)[id] == convs[i]
  {
    if convs != [] {
      var front, n := convs[..|convs| - 1], |convs| - 1;
      ByLastIff(front, id);
      if convs[n].sandboxId == id {
        assert IsLast(convs, n, id);
      } else {
        forall i: nat | i < |convs| && IsLast(convs, i, id) ensures i < |front| && IsLast(front, i, id) {
        }
        if i: nat :| i < |front| && IsLast(front, i, id) {
          assert IsLast(convs, i, id);
        }
      }
    }
  }

  /** The decision taken from the map is the declarative one. */
  lemma DecisionIsOrphan(inp: Inputs, id: string)
    ensures Orphan(inp, id) <==> OldEnough(inp, id) && (id !in ByLast(inp.convs) || Dead(ByLast(inp.convs)[id]))
  {
    ByLastIff(inp.convs, id);
  }

  /** Sweeping one more id is tearing it down in what is left. */
  lemma SweepOneMore(c: Cluster, ids: set<string>, id: string, faults: Faults)
    ensures Teardown(Swept(c, ids, faults), id, faults) == Swept(c, ids + {id}, faults)
  {
    SweepOneMoreMap(c.jobs, ids, id, JobFaults(c, faults), faults, DeleteJob(JobName(id)));
    SweepOneMoreMap(c.services, ids, id, ServiceFaults(c, faults), faults, DeleteService(JobName(id)));
    SweepOneMoreMap(c.ingresses, ids, id, IngressFaults(c, faults), faults, DeleteIngress(JobName(id)));
  }

  lemma SweepOneMoreMap<V>(m: map<string, V>, ids: set<string>, id: string, failed: set<string>,
                           faults: Faults, call: Call)
    requires JobName(id) in m ==> (JobName(id) in failed <==> call in faults)
    ensures Deleted(SweptMap(m, ids, failed), JobName(id), faults, call).0 == SweptMap(m, ids + {id}, failed)
  {
    forall n ensures NamesOne(ids + {id}, n) <==> NamesOne(ids, n) || JobName(id) == n {
      if other :| other in ids && JobName(other) == n {
        assert other in ids + {id};
      }
      assert id in ids + {id};
    }
  }

  class LifecycleManager {
    const k8s: Kubernetes

    constructor (k8s: Kubernetes)
      ensures this.k8s == k8s
    {
      this.k8s := k8s;
    }

    method StripNames(names: set<string>) returns (ids: set<string>)
      ensures ids == Stripped(names)
    {
      ids := {};
      var todo := names;
      while todo != {}
        invariant todo <= names
        invariant ids == Stripped(names - todo)
      {
        var n :| n in todo;
        if HasPrefix(n, JOB_PREFIX) {
          ids := ids + {n[|JOB_PREFIX|..]};
        }
        assert names - (todo - {n}) == (names - todo) + {n};
        todo := todo - {n};
      }
      assert names - todo == names;
    }

    method ListSandboxIds() returns (ids: set<string>)
      ensures ids == SandboxIds(k8s.View())
    {
      var services := StripNames(k8s.services.Keys);
      var jobs := StripNames(k8s.jobs.Keys);
      var ingresses := StripNames(k8s.ingresses.Keys);
      ids := services + jobs + ingresses;
    }

    method DeleteSandboxResources(id: string, faults: Faults)
      modifies k8s
      ensures k8s.View() == Teardown(old(k8s.View()), id, faults)
    {
      var status := k8s.DeleteJobNamed(JobName(id), faults);
      status := k8s.DeleteServiceNamed(JobName(id), faults);
      status := k8s.DeleteIngressNamed(JobName(id), faults);
    }

    method FindOrphans(ids: set<string>, inp: Inputs) returns (orphans: set<string>)
      ensures orphans == set id | id in ids && Orphan(inp, id)
    {
      var byId: map<string, Conversation> := map[];
      for i := 0 to |inp.convs|
        invariant byId == ByLast(inp.convs[..i])
      {
        assert inp.convs[..i + 1][..i] == inp.convs[..i];
        if inp.convs[i].sandboxId != "" {
          byId := byId[inp.convs[i].sandboxId := inp.convs[i]];
        }
      }
      assert inp.convs[..|inp.convs|] == inp.convs;
      orphans := {};
      var todo := ids;
      while todo != {}
        invariant todo <= ids
        invariant orphans == set id | id in ids && id !in todo && Orphan(inp, id)
      {
        var id :| id in todo;
        todo := todo - {id};
        DecisionIsOrphan(inp, id);
        if id in inp.podStarted && (inp.now - inp.podStarted[id]) / 60.0 < inp.minAge {
          continue;
        }
        if id !in byId || Dead(byId[id]) {
          orphans := orphans + {id};
        }
      }
    }

    method CleanupOrphanedSandboxes(inp: Inputs, faults: Faults)
      modifies k8s
      ensures k8s.View() == SweepOrphans(old(k8s.View()), inp, faults)
    {
      if ListSandboxes in faults {
        return;
      }
      ghost var before := k8s.View();
      var ids := ListSandboxIds();
      if ids == {} || ListConversations in faults {
        NothingSwept(before, faults);
        return;
      }
      var orphans := FindOrphans(ids, inp);
      SweepAll(orphans, faults);
      assert orphans == Orphans(before, inp);
    }

    method SweepAll(orphans: set<string>, faults: Faults)
      modifies k8s
      ensures k8s.View() == Swept(old(k8s.View()), orphans, faults)
    {
      ghost var before := k8s.View();
      NothingSwept(before, faults);
      var todo := orphans;
      assert orphans - todo == {};
      while todo != {}
        invariant todo <= orphans
        invariant k8s.View() == Swept(before, orphans - todo, faults)
      {
        var id :| id in todo;
        SweepOneMore(before, orphans - todo, id, faults);
        DeleteSandboxResources(id, faults);
        assert orphans - (todo - {id}) == (orphans - todo) + {id};
        todo := todo - {id};
      }
      assert orphans - todo == orphans;
    }

    method CleanupOldClaims(now: real, maxAgeDays: real, faults: Faults)
      modifies k8s`claims
      ensures k8s.View() == SweepOldClaims(old(k8s.View()), now, maxAgeDays, faults)
    {
      if maxAgeDays <= 0.0 || ListClaims in faults {
        return;
      }
      ghost var before := k8s.claims;
      var todo := k8s.claims.Keys;
      while todo != {}
        invariant todo <= before.Keys
        invariant k8s.claims == map n | n in before &&
          (n in todo || DeleteClaim(n) in faults || !Expired(n, before[n], now, maxAgeDays)) :: before[n]
      {
        var n :| n in todo;
        if Expired(n, k8s.claims[n], now, maxAgeDays) {
          var _ := k8s.DeleteClaimNamed(n, faults);
        }
        todo := todo - {n};
      }
    }
  }
}
