/** What every interleaving of the pending-conversation protocol keeps. */
module ProtocolSafety {
  import opened Options
  import opened Tables
  import opened Protocol

  // ------------------------------------------------------------------ what one step does to the queue

  predicate QueueKept(s: State, s': State) {
    && s'.tables.pending == s.tables.pending && s'.tables.nextId == s.tables.nextId
    && s'.issued == s.issued && s'.log == s.log
  }

  predicate QueuedOne(s: State, s': State, m: Message) {
    && m.id == s.tables.nextId
    && s'.tables.pending == s.tables.pending + [m] && s'.tables.nextId == s.tables.nextId + 1
    && s'.issued == s.issued + [m] && s'.log == s.log
  }

  predicate Drained(s: State, s': State, b: Batch) {
    && s'.tables.pending == Without(s.tables.pending, b.key) && s'.tables.nextId == s.tables.nextId
    && s'.issued == s.issued && s'.log == s.log + [b]
  }

  /** The key whose row a step of `p` looks up. */
  function LookupKey(p: Process): Option<Key> {
    match p.pc
    case LookingUp => Some(p.key)
    case ClearLookup(_) => Some(p.key)
    case InferringRow(issue, _) => Some(IssueKey(issue))
    case _ => None
  }

  function BatchOf(s: State, k: Key, fate: Fate): Batch {
    Batch(k, fate, Of(s.tables.pending, k))
  }

  /** The batch a step of process `i` drains, if any. */
  function DrainOf(s: State, i: nat): Option<Batch>
    requires i < |s.procs|
  {
    var p := s.procs[i];
    match p.pc
    case Draining(conv) => Some(BatchOf(s, p.key, Flushed(i, conv)))
    case Discarding(_) => Some(BatchOf(s, p.key, Discarded))
    case _ =>
      var looked := LookupKey(p);
      if looked.Some? && s.tables.Stale(looked.value, s.now) then Some(BatchOf(s, looked.value, Expired)) else None
  }

  predicate Drains(s: State, i: nat, k: Key) {
    i < |s.procs| && DrainOf(s, i).Some? && DrainOf(s, i).value.key == k
  }

  /** A transaction queues one message, drains one key's queue, or leaves the queue alone. */
  lemma QueueEffect(s: State, i: nat)
    requires i < |s.procs|
    ensures var p := s.procs[i];
            if p.pc.Queueing? then QueuedOne(s, Transact(s, i), Message(s.tables.nextId, p.key, p.text))
            else if DrainOf(s, i).Some? then Drained(s, Transact(s, i), DrainOf(s, i).value)
            else QueueKept(s, Transact(s, i))
  {
    match s.procs[i].pc
    case LookingUp =>
    case ClearLookup(_) =>
    case InferringRow(_, _) =>
    case Draining(_) =>
    case Discarding(_) =>
    case _ =>
  }

  lemma AppliedQueue(s: State, a: Action)
    requires Enabled(s, a)
    ensures QueueKept(if a.Run? then Transact(s, a.i) else s, Apply(s, a))
  {
  }

  // ------------------------------------------------------------------ marker ownership

  /** The process stored a marker and has yet to resolve or clear it. */
  predicate Holding(p: Process) {
    match p.pc
    case Posting => p.kind.Label?
    case Spawning => true
    case Creating => true
    case Polling(_) => true
    case Storing(_) => true
    case ClearLookup(_) => true
    case ClearRow(_) => true
    case _ => false
  }

  /** A marker belongs to the last process that stored it, and that process is still on its way
      to resolve or clear it, unless it raised between marking and spawning. */
  predicate OwnedAt(s: State, k: Key) {
    s.tables.IsPending(k) ==>
      && k in s.owner && s.owner[k] < |s.procs|
      && s.procs[s.owner[k]].key == k
      && (Holding(s.procs[s.owner[k]]) || s.procs[s.owner[k]].pc.Aborted?)
  }

  /** A conversation on its way into the map is a real one. */
  predicate RealConversations(s: State) {
    forall i | 0 <= i < |s.procs| && s.procs[i].pc.Storing? :: s.procs[i].pc.created != PENDING
  }

  /** What a transaction does to a key's marker. */
  lemma MarkerEffect(s: State, i: nat, k: Key)
    requires i < |s.procs|
    ensures Transact(s, i).procs == s.procs
    ensures var p := s.procs[i]; Transact(s, i).owner == if p.pc.Marking? then s.owner[p.key := i] else s.owner
    ensures var p, t, t' := s.procs[i], s.tables, Transact(s, i).tables;
            if p.key == k && p.pc.Marking? then t'.IsPending(k)
            else if p.key == k && p.pc.Storing? then t'.IsPending(k) <==> p.pc.created == PENDING
            else if p.key == k && p.pc.ClearRow? then !t'.IsPending(k)
            else if LookupKey(p) == Some(k) then t'.IsPending(k) <==> t.Lookup(k, s.now).1 == Some(PENDING)
            else t'.IsPending(k) <==> t.IsPending(k)
  {
    match s.procs[i].pc
    case LookingUp =>
    case ClearLookup(_) =>
    case InferringRow(_, _) =>
    case Marking =>
    case Storing(_) =>
    case ClearRow(_) =>
    case _ =>
  }

  /** A holder keeps holding, aborts, or has just resolved or cleared the marker. */
  lemma HolderMoves(t: Tables, now: real, p: Process, o: Outcome)
    requires Allowed(p, o)
    ensures var p' := p.(pc := NextPc(t, now, p, o));
            && (Holding(p) ==>
                  || Holding(p') || p'.pc.Aborted? || p.pc.Storing? || p.pc.ClearRow?
                  || (p.pc.ClearLookup? && t.Lookup(p.key, now).1 != Some(PENDING)))
            && (p.pc.Marking? ==> Holding(p'))
            && (p'.pc.Storing? ==> p'.pc.created != PENDING)
            && !p.pc.Aborted?
  {
    match p.pc
    case Polling(_) =>
    case Creating =>
    case Posting =>
    case ClearLookup(_) =>
    case _ =>
  }

  lemma StepKeepsOwner(s: State, a: Action, k: Key)
    requires Enabled(s, a) && RealConversations(s) && OwnedAt(s, k)
    ensures RealConversations(Apply(s, a)) && OwnedAt(Apply(s, a), k)
  {
    if a.Run? {
      MarkerEffect(s, a.i, k);
      HolderMoves(s.tables, s.now, s.procs[a.i], a.o);
    }
  }

  /** Marker ownership, over every interleaving of any number of handlers and creation tasks. */
  lemma {:induction false} MarkerAlwaysOwned(s: State, actions: seq<Action>, k: Key)
    requires Initial(s) && IsRun(s, actions)
    ensures RealConversations(After(s, actions)) && OwnedAt(After(s, actions), k)
  {
    if actions != [] {
      var front := actions[..|actions| - 1];
      MarkerAlwaysOwned(s, front, k);
      StepKeepsOwner(After(s, front), actions[|actions| - 1], k);
    }
  }

  /** A live owner: the marker's process is still on its way to resolve or clear it. */
  predicate LiveAt(s: State, k: Key) {
    s.tables.IsPending(k) ==>
      && k in s.owner && s.owner[k] < |s.procs|
      && s.procs[s.owner[k]].key == k && Holding(s.procs[s.owner[k]])
  }

  /** The marker stands, and the status comment of the handler that owns it raises. */
  predicate Abandons(s: State, a: Action, k: Key) {
    && s.tables.IsPending(k)
    && k in s.owner && s.owner[k] < |s.procs| && s.procs[s.owner[k]].pc.Posting?
    && a == Run(s.owner[k], Raises)
  }

  /** One step leaves a marker without a live owner exactly when its handler raises while posting. */
  lemma StepAbandonsIff(s: State, a: Action, k: Key)
    requires Enabled(s, a) && RealConversations(s) && LiveAt(s, k)
    ensures LiveAt(Apply(s, a), k) <==> !Abandons(s, a, k)
  {
    if a.Run? {
      MarkerEffect(s, a.i, k);
      HolderMoves(s.tables, s.now, s.procs[a.i], a.o);
    }
  }

  /** Along a run every marker always has a live owner exactly when no owner ever raises while posting. */
  lemma AlwaysLiveIff(s: State, actions: seq<Action>, k: Key)
    requires Initial(s) && IsRun(s, actions)
    ensures (forall j: nat | j <= |actions| :: LiveAt(At(s, actions, j), k))
       <==> (forall j: nat | j < |actions| :: !Abandons(At(s, actions, j), actions[j], k))
  {
    if forall j: nat | j < |actions| :: !Abandons(At(s, actions, j), actions[j], k) {
      forall j: nat | j <= |actions| ensures LiveAt(At(s, actions, j), k) {
        LiveUpTo(s, actions, k, j);
      }
    }
    if forall j: nat | j <= |actions| :: LiveAt(At(s, actions, j), k) {
      forall j: nat | j < |actions| ensures !Abandons(At(s, actions, j), actions[j], k) {
        StepOfRun(s, actions, j, k);
        assert LiveAt(At(s, actions, j + 1), k);
        StepAbandonsIff(At(s, actions, j), actions[j], k);
      }
    }
  }

  lemma StepOfRun(s: State, actions: seq<Action>, j: nat, k: Key)
    requires Initial(s) && IsRun(s, actions) && j < |actions|
    ensures RealConversations(At(s, actions, j)) && Enabled(At(s, actions, j), actions[j])
    ensures At(s, actions, j + 1) == Apply(At(s, actions, j), actions[j])
  {
    RunStep(s, actions, j);
    PrefixIsRun(s, actions, j);
    MarkerAlwaysOwned(s, actions[..j], k);
  }

  lemma {:induction false} LiveUpTo(s: State, actions: seq<Action>, k: Key, j: nat)
    requires Initial(s) && IsRun(s, actions) && j <= |actions|
    requires forall i: nat | i < |actions| :: !Abandons(At(s, actions, i), actions[i], k)
    ensures LiveAt(At(s, actions, j), k)
  {
    if j > 0 {
      LiveUpTo(s, actions, k, j - 1);
      StepOfRun(s, actions, j - 1, k);
      StepAbandonsIff(At(s, actions, j - 1), actions[j - 1], k);
    }
  }

  /** The marker has stood ever since its handler raised in step `j`. */
  predicate AbandonedAt(s: State, actions: seq<Action>, k: Key, j: nat)
    requires IsRun(s, actions)
  {
    && j < |actions| && Abandons(At(s, actions, j), actions[j], k)
    && forall i: nat | j < i <= |actions| :: At(s, actions, i).tables.IsPending(k)
  }

  /** A marker without a live owner has stood since its handler raised. */
  lemma {:induction false} NotLiveIsAbandoned(s: State, actions: seq<Action>, k: Key) returns (j: nat)
    requires Initial(s) && IsRun(s, actions) && !LiveAt(After(s, actions), k)
    ensures AbandonedAt(s, actions, k, j)
  {
    var n := |actions| - 1;
    var front := actions[..n];
    assert actions[..|actions|] == actions && front[..|front|] == front;
    StepOfRun(s, actions, n, k);
    if LiveAt(After(s, front), k) {
      StepAbandonsIff(After(s, front), actions[n], k);
      j := n;
    } else {
      j := NotLiveIsAbandoned(s, front, k);
      forall i: nat | i <= n ensures At(s, front, i) == At(s, actions, i) {
        assert front[..i] == actions[..i];
      }
    }
  }

  // ------------------------------------------------------------------ no stranded message

  /** Process `i` has resolved or cleared the key's row and has yet to drain the key's queue. */
  predicate Drainer(s: State, i: nat, k: Key) {
    i < |s.procs| && s.procs[i].key == k && (s.procs[i].pc.Draining? || s.procs[i].pc.Discarding?)
  }

  predicate Covered(s: State, k: Key) {
    s.tables.IsPending(k) || exists i: nat | i < |s.procs| :: Drainer(s, i, k)
  }

  /** Whatever is queued for the key will be drained. */
  predicate NotStranded(s: State, k: Key) {
    Of(s.tables.pending, k) == [] || Covered(s, k)
  }

  /** The action queues a message for the key. */
  predicate Queues(s: State, a: Action, k: Key) {
    a.Run? && a.i < |s.procs| && s.procs[a.i].pc.Queueing? && s.procs[a.i].key == k
  }

  /** A drainer other than the stepping process is still a drainer after the step. */
  lemma OtherDrainerStays(s: State, a: Action, k: Key, i: nat)
    requires Enabled(s, a) && Drainer(s, i, k) && !(a.Run? && a.i == i)
    ensures Drainer(Apply(s, a), i, k)
  {
  }

  /** A step that does not queue for the key leaves the key's queue as it is, or empties it. */
  lemma QueueOnlyShrinks(s: State, a: Action, k: Key)
    requires Enabled(s, a) && !Queues(s, a, k)
    ensures var q := Of(Apply(s, a).tables.pending, k); q == Of(s.tables.pending, k) || q == []
    ensures a.Run? && Drains(s, a.i, k) ==>
              Of(Apply(s, a).tables.pending, k) == []
  {
    AppliedQueue(s, a);
    if a.Run? {
      var p := s.procs[a.i];
      QueueEffect(s, a.i);
      OfAppend(s.tables.pending, Message(s.tables.nextId, p.key, p.text), k);
      if DrainOf(s, a.i).Some? {
        OfWithout(s.tables.pending, DrainOf(s, a.i).value.key, k);
      }
    }
  }

  /** A marker disappears into a drainer's hands, or expires together with the queue. */
  lemma MarkerHandedOver(s: State, a: Action, k: Key)
    requires Enabled(s, a) && s.tables.IsPending(k) && !Apply(s, a).tables.IsPending(k)
    ensures a.Run?
    ensures Drainer(Apply(s, a), a.i, k) || Drains(s, a.i, k)
  {
    if a.Run? {
      MarkerEffect(s, a.i, k);
    }
  }

  /** Queueing strands nothing exactly when the key is covered. */
  lemma QueueingStrandsIff(s: State, a: Action, k: Key)
    requires Enabled(s, a) && Queues(s, a, k)
    ensures NotStranded(Apply(s, a), k) <==> Covered(s, k)
  {
    var s', p := Apply(s, a), s.procs[a.i];
    OfAppend(s.tables.pending, Message(s.tables.nextId, k, p.text), k);
    assert s'.tables.IsPending(k) == s.tables.IsPending(k);
    forall i: nat | i < |s.procs|
      ensures Drainer(s, i, k) == Drainer(s', i, k)
    {
    }
  }

  lemma OtherStepsStrandNothing(s: State, a: Action, k: Key)
    requires Enabled(s, a) && NotStranded(s, k) && !Queues(s, a, k)
    ensures NotStranded(Apply(s, a), k)
  {
    var s' := Apply(s, a);
    QueueOnlyShrinks(s, a, k);
    if Of(s'.tables.pending, k) != [] {
      if s.tables.IsPending(k) {
        if !s'.tables.IsPending(k) {
          MarkerHandedOver(s, a, k);
        }
      } else {
        var i: nat :| i < |s.procs| && Drainer(s, i, k);
        OtherDrainerStays(s, a, k, i);
        assert Drainer(s', i, k);
      }
    }
  }

  /** One step strands nothing, unless it queues a message nobody is due to drain; and then it does. */
  lemma StepStrandsIff(s: State, a: Action, k: Key)
    requires Enabled(s, a) && NotStranded(s, k)
    ensures NotStranded(Apply(s, a), k) <==> (Queues(s, a, k) ==> Covered(s, k))
  {
    if Queues(s, a, k) {
      QueueingStrandsIff(s, a, k);
    } else {
      OtherStepsStrandNothing(s, a, k);
    }
  }

  /** In every moment of a run nothing is stranded for a key, exactly when every message was queued
      at a moment when the key was covered. */
  lemma NeverStrandedIff(s: State, actions: seq<Action>, k: Key)
    requires Initial(s) && IsRun(s, actions)
    ensures (forall j: nat | j <= |actions| :: NotStranded(At(s, actions, j), k))
       <==> (forall j: nat | j < |actions| && Queues(At(s, actions, j), actions[j], k) ::
               Covered(At(s, actions, j), k))
  {
    if forall j: nat | j < |actions| && Queues(At(s, actions, j), actions[j], k) ::
         Covered(At(s, actions, j), k)
    {
      forall j: nat | j <= |actions| ensures NotStranded(At(s, actions, j), k) {
        CoveredQueueingIsSafe(s, actions, k, j);
      }
    }
    if forall j: nat | j <= |actions| :: NotStranded(At(s, actions, j), k) {
      forall j: nat | j < |actions| && Queues(At(s, actions, j), actions[j], k)
        ensures Covered(At(s, actions, j), k)
      {
        RunStep(s, actions, j);
        assert NotStranded(At(s, actions, j + 1), k);
        StepStrandsIff(At(s, actions, j), actions[j], k);
      }
    }
  }

  lemma {:induction false} CoveredQueueingIsSafe(s: State, actions: seq<Action>, k: Key, j: nat)
    requires Initial(s) && IsRun(s, actions) && j <= |actions|
    requires forall i: nat | i < |actions| && Queues(At(s, actions, i), actions[i], k) ::
               Covered(At(s, actions, i), k)
    ensures NotStranded(At(s, actions, j), k)
  {
    if j > 0 {
      CoveredQueueingIsSafe(s, actions, k, j - 1);
      RunStep(s, actions, j - 1);
      StepStrandsIff(At(s, actions, j - 1), actions[j - 1], k);
    }
  }

  /** The action continues the process that took the last step. */
  predicate Continues(actions: seq<Action>, a: Action) {
    a.Run? && actions != [] && actions[|actions| - 1].Run? && actions[|actions| - 1].i == a.i
  }

  /** Look-up and queue as one transaction: whenever a handler queues a message, its own look-up
      was the step just before. */
  predicate FusedQueueing(s: State, actions: seq<Action>, k: Key)
    requires IsRun(s, actions)
  {
    actions == [] ||
    var front, last := actions[..|actions| - 1], actions[|actions| - 1];
    FusedQueueing(s, front, k) && (Queues(After(s, front), last, k) ==> Continues(front, last))
  }

  lemma {:induction false} FusedAt(s: State, actions: seq<Action>, k: Key, j: nat)
    requires IsRun(s, actions) && FusedQueueing(s, actions, k)
    requires j < |actions| && Queues(At(s, actions, j), actions[j], k)
    ensures Continues(actions[..j], actions[j])
  {
    if j < |actions| - 1 {
      var front := actions[..|actions| - 1];
      assert front[..j] == actions[..j];
      FusedAt(s, front, k, j);
    }
  }

  lemma LinkStays(s: State, a: Action, k: Key)
    requires Enabled(s, a) && s.tables.GetLink(k).Some?
    ensures Apply(s, a).tables.GetLink(k) == s.tables.GetLink(k)
  {
    if a.Run? {
      match s.procs[a.i].pc
      case LookingUp =>
      case _ =>
    }
  }

  /** Links are write-once: whatever a key is linked to at any moment of a run, it stays linked to. */
  lemma {:induction false} LinksOnlyGrow(s: State, actions: seq<Action>, k: Key, i: nat, j: nat)
    requires IsRun(s, actions) && i <= j <= |actions|
    ensures At(s, actions, i).tables.GetLink(k).Some? ==>
              At(s, actions, j).tables.GetLink(k) == At(s, actions, i).tables.GetLink(k)
    decreases j
  {
    if i < j && At(s, actions, i).tables.GetLink(k).Some? {
      LinksOnlyGrow(s, actions, k, i, j - 1);
      RunStep(s, actions, j - 1);
      LinkStays(At(s, actions, j - 1), actions[j - 1], k);
    }
  }

  /** The step hands the key the marker of a Jira conversation still being created. */
  predicate InfersMarker(s: State, a: Action, k: Key) {
    a.Run? && a.i < |s.procs| && s.procs[a.i].key == k && s.procs[a.i].pc == Linking(PENDING)
  }

  /** A handler decides to queue only on seeing the marker: in the row, in the link, or in the row,
      ticket or link of a Jira key. */
  lemma QueueingSawMarker(s: State, a: Action, k: Key)
    requires Enabled(s, a) && a.Run? && Apply(s, a).procs[a.i].pc.Queueing? && s.procs[a.i].key == k
    ensures Apply(s, a).tables.IsPending(k) || s.tables.GetLink(k) == Some(PENDING) || InfersMarker(s, a, k)
  {
    MarkerEffect(s, a.i, k);
  }

  /** Along the run the key is neither linked to the marker nor handed it by inference. */
  predicate MarkerOnlyInRow(s: State, actions: seq<Action>, k: Key)
    requires IsRun(s, actions)
  {
    && After(s, actions).tables.GetLink(k) != Some(PENDING)
    && forall j: nat | j < |actions| :: !InfersMarker(At(s, actions, j), actions[j], k)
  }

  /** With look-up and queue fused, no message is ever stranded for a key to which the marker is
      neither linked nor inferred. */
  lemma FusedNeverStrands(s: State, actions: seq<Action>, k: Key, j: nat)
    requires Initial(s) && IsRun(s, actions) && j <= |actions|
    requires FusedQueueing(s, actions, k) && MarkerOnlyInRow(s, actions, k)
    ensures NotStranded(At(s, actions, j), k)
  {
    forall i: nat | i < |actions| && Queues(At(s, actions, i), actions[i], k)
      ensures Covered(At(s, actions, i), k)
    {
      FusedAt(s, actions, k, i);
      RunStep(s, actions, i - 1);
      assert actions[..|actions|] == actions;
      LinksOnlyGrow(s, actions, k, i - 1, |actions|);
      QueueingSawMarker(At(s, actions, i - 1), actions[i - 1], k);
    }
    CoveredQueueingIsSafe(s, actions, k, j);
  }

  /** The key's webhooks mention no Jira keys, and it is never linked to the marker: as for every
      GitHub resource no one links to it. */
  predicate NoJiraKeys(actions: seq<Action>, k: Key) {
    forall a | a in actions ::
      && (a.Arrive? && a.key == k ==> a.kind.issues == [])
      && (a.Link? && a.target == k ==> a.conversation != PENDING)
  }

  predicate PlainAt(s: State, k: Key) {
    && s.tables.GetLink(k) != Some(PENDING)
    && forall i | 0 <= i < |s.procs| && s.procs[i].key == k ::
         s.procs[i].kind.issues == [] && !Infers(s.procs[i].pc)
  }

  predicate Infers(pc: Pc) {
    pc.InferringRow? || pc.InferringTicket? || pc.InferringLink? || pc.Linking?
  }

  lemma PlainMoves(t: Tables, now: real, p: Process, o: Outcome)
    requires Allowed(p, o) && p.kind.issues == [] && !Infers(p.pc)
    ensures !Infers(NextPc(t, now, p, o))
  {
    match p.pc
    case LookingUp =>
    case LookingUpLink =>
    case _ =>
  }

  lemma LinkEffect(s: State, i: nat, k: Key)
    requires i < |s.procs|
    ensures Transact(s, i).tables.GetLink(k) == s.tables.GetLink(k) || (s.procs[i].key == k && s.procs[i].pc.Linking?)
  {
    match s.procs[i].pc
    case LookingUp =>
    case _ =>
  }

  lemma StepKeepsPlain(s: State, a: Action, k: Key)
    requires Enabled(s, a) && PlainAt(s, k) && NoJiraKeys([a], k)
    ensures PlainAt(Apply(s, a), k)
  {
    assert a in [a];
    if a.Run? {
      LinkEffect(s, a.i, k);
      if s.procs[a.i].key == k {
        PlainMoves(s.tables, s.now, s.procs[a.i], a.o);
      }
    }
  }

  lemma {:induction false} PlainThroughout(s: State, actions: seq<Action>, k: Key, j: nat)
    requires PlainAt(s, k) && IsRun(s, actions) && NoJiraKeys(actions, k) && j <= |actions|
    ensures PlainAt(At(s, actions, j), k)
  {
    if j > 0 {
      PlainThroughout(s, actions, k, j - 1);
      RunStep(s, actions, j - 1);
      assert actions[j - 1] in actions;
      StepKeepsPlain(At(s, actions, j - 1), actions[j - 1], k);
    }
  }

  /** With look-up and queue fused, nothing is ever stranded for such a key: a condition on the
      webhooks and links alone. */
  lemma PlainNeverStrands(s: State, actions: seq<Action>, k: Key, j: nat)
    requires Initial(s) && IsRun(s, actions) && j <= |actions|
    requires NoJiraKeys(actions, k) && s.tables.GetLink(k) != Some(PENDING)
    requires FusedQueueing(s, actions, k)
    ensures NotStranded(At(s, actions, j), k)
  {
    forall i: nat | i < |actions| ensures !InfersMarker(At(s, actions, i), actions[i], k) {
      PlainThroughout(s, actions, k, i);
    }
    PlainThroughout(s, actions, k, |actions|);
    assert actions[..|actions|] == actions;
    FusedNeverStrands(s, actions, k, j);
  }

  // ------------------------------------------------------------------ resolved mappings

  predicate Maps(s: State, k: Key, conversation: string) {
    k in s.tables.conversations && s.tables.conversations[k].conversation == conversation
  }

  /** The step deletes the key's row in a clearing task. */
  predicate Clears(s: State, a: Action, k: Key) {
    a.Run? && a.i < |s.procs| && s.procs[a.i].key == k && s.procs[a.i].pc.ClearRow?
  }

  /** The step stores a new marker or another conversation over the key's row. */
  predicate Overwrites(s: State, a: Action, k: Key, conversation: string) {
    && a.Run? && a.i < |s.procs| && s.procs[a.i].key == k
    && (s.procs[a.i].pc.Marking? || (s.procs[a.i].pc.Storing? && s.procs[a.i].pc.created != conversation))
  }

  /** A resolved mapping is lost in exactly two ways: a clearing task that earlier saw the marker
      deletes the row, or another creator of the same key stores over it. */
  lemma MappingLostIff(s: State, a: Action, k: Key, conversation: string)
    requires Enabled(s, a) && Maps(s, k, conversation) && conversation != PENDING
    ensures !Maps(Apply(s, a), k, conversation) <==> Clears(s, a, k) || Overwrites(s, a, k, conversation)
    ensures k !in Apply(s, a).tables.conversations <==> Clears(s, a, k)
  {
    if a.Run? {
      match s.procs[a.i].pc
      case LookingUp =>
      case ClearLookup(_) =>
      case InferringRow(_, _) =>
      case Marking =>
      case Storing(_) =>
      case ClearRow(_) =>
      case _ =>
    }
  }

  /** A clearing task reaches its delete only from a look-up that saw the marker. */
  lemma ClearingSawMarker(s: State, a: Action)
    requires Enabled(s, a) && a.Run? && Apply(s, a).procs[a.i].pc.ClearRow?
    ensures Apply(s, a).tables.IsPending(s.procs[a.i].key)
  {
    MarkerEffect(s, a.i, s.procs[a.i].key);
  }

  /** If a clearing task's look-up and delete are one step, no run ever deletes a resolved mapping. */
  lemma FusedClearingKeepsMappings(s: State, actions: seq<Action>, k: Key, conversation: string, j: nat)
    requires IsRun(s, actions) && j < |actions|
    requires forall i: nat | i < |actions| && Clears(At(s, actions, i), actions[i], k) ::
               Continues(actions[..i], actions[i])
    requires Maps(At(s, actions, j), k, conversation) && conversation != PENDING
    ensures k in At(s, actions, j + 1).tables.conversations
  {
    RunStep(s, actions, j);
    MappingLostIff(At(s, actions, j), actions[j], k, conversation);
    if Clears(At(s, actions, j), actions[j], k) {
      RunStep(s, actions, j - 1);
      ClearingSawMarker(At(s, actions, j - 1), actions[j - 1]);
    }
  }

  // ------------------------------------------------------------------ metadata

  function Forget(s: State): State {
    s.(tables := Bare(s.tables))
  }

  lemma LookUpForgets(s: State, k: Key)
    ensures Forget(s).LookUp(k) == Forget(s.LookUp(k))
  {
    LookupIsBare(s.tables, k, s.now);
  }

  lemma TransactForgets(s: State, i: nat)
    requires i < |s.procs|
    ensures Transact(Forget(s), i) == Forget(Transact(s, i))
  {
    var p := s.procs[i];
    match p.pc
    case LookingUp => LookUpForgets(s, p.key);
    case ClearLookup(_) => LookUpForgets(s, p.key);
    case InferringRow(issue, _) => LookUpForgets(s, IssueKey(issue));
    case Marking => StoreIsBare(s.tables, p.key, PENDING, s.now);
    case Storing(conv) => StoreIsBare(s.tables, p.key, conv, s.now);
    case ClearRow(_) => StoreIsBare(s.tables, p.key, PENDING, s.now);
    case _ =>
  }

  lemma NextPcForgets(t: Tables, now: real, p: Process, o: Outcome)
    requires Allowed(p, o)
    ensures NextPc(Bare(t), now, p, o) == NextPc(t, now, p, o)
  {
    match p.pc
    case LookingUp => LookupIsBare(t, p.key, now);
    case ClearLookup(_) => LookupIsBare(t, p.key, now);
    case InferringRow(issue, _) => LookupIsBare(t, IssueKey(issue), now);
    case _ =>
  }

  /** No step of any process depends on a row's metadata. */
  lemma StepForgets(s: State, a: Action)
    ensures Enabled(Forget(s), a) == Enabled(s, a)
    ensures Enabled(s, a) ==> Apply(Forget(s), a) == Forget(Apply(s, a))
  {
    if a.Run? && Enabled(s, a) {
      TransactForgets(s, a.i);
      NextPcForgets(s.tables, s.now, s.procs[a.i], a.o);
    }
  }

  /** Whatever metadata the tracking of conversations writes, the protocol runs the same. */
  lemma {:induction false} RunsIgnoreMetadata(s: State, s': State, actions: seq<Action>)
    requires Forget(s) == Forget(s')
    ensures IsRun(s, actions) == IsRun(s', actions)
    ensures IsRun(s, actions) ==> Forget(After(s, actions)) == Forget(After(s', actions))
    decreases |actions|
  {
    if actions != [] {
      var front, last := actions[..|actions| - 1], actions[|actions| - 1];
      RunsIgnoreMetadata(s, s', front);
      if IsRun(s, front) {
        StepForgets(After(s, front), last);
        StepForgets(After(s', front), last);
      }
    }
  }
}
