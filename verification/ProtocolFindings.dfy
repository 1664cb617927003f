/** Where the pending-conversation protocol, as written, falls short: concrete runs for every key,
    next to the exact step that goes wrong. */
module ProtocolFindings {
  import opened Options
  import opened Tables
  import opened Protocol
  import opened ProtocolSafety
  import opened ProtocolQuiescence

  const START := State(Tables(map[], [], 0, map[], map[]), [], 0.0, map[], [], [])

  /** The run leads from the start to the state, and every queueing for `q` directly follows the
      look-up of its process. */
  ghost predicate Leads(run: seq<Action>, s: State, q: Key) {
    IsRun(START, run) && After(START, run) == s && FusedQueueing(START, run, q)
  }

  lemma Extend(run: seq<Action>, a: Action)
    requires IsRun(START, run) && Enabled(After(START, run), a)
    ensures IsRun(START, run + [a]) && After(START, run + [a]) == Apply(After(START, run), a)
  {
    assert (run + [a])[..|run|] == run;
  }

  lemma Act(run: seq<Action>, s: State, a: Action, q: Key) returns (run': seq<Action>, s': State)
    requires Leads(run, s, q) && Enabled(s, a) && (Queues(s, a, q) ==> Continues(run, a))
    ensures Leads(run', s', q) && s' == Apply(s, a)
    ensures forall i, o :: a == Run(i, o) ==> Continues(run', Run(i, Succeeds))
  {
    run', s' := run + [a], Apply(s, a);
    Extend(run, a);
    assert run'[..|run|] == run;
  }

  /** A new label handler stores the marker ... */
  lemma LabelMarks(front: seq<Action>, before: State, k: Key, q: Key) returns (run: seq<Action>, s: State)
    requires Leads(front, before, q)
    ensures Leads(run, s, q)
    ensures s == before.(tables := before.tables.StoreConversation(k, PENDING, before.now),
                         owner := before.owner[k := |before.procs|],
                         procs := before.procs + [Process(k, Label([]), "", false, [], Posting)])
  {
    var i, p := |before.procs|, Process(k, Label([]), "", false, [], Marking);
    run, s := Act(front, before, Arrive(k, Label([]), ""), q);
    assert s.procs == before.procs + [p];
    run, s := Act(run, s, Run(i, Succeeds), q);
    assert s.procs == before.procs + [p.(pc := Posting)];
  }

  /** ... posts its comment, and its creation is accepted. */
  lemma LabelCreates(front: seq<Action>, before: State, k: Key, q: Key) returns (run: seq<Action>, s: State)
    requires Leads(front, before, q)
    ensures Leads(run, s, q)
    ensures s == before.(tables := before.tables.StoreConversation(k, PENDING, before.now),
                         owner := before.owner[k := |before.procs|],
                         procs := before.procs + [Process(k, Label([]), "", true, [], Polling(MAX_POLLS))])
  {
    var i, p := |before.procs|, Process(k, Label([]), "", true, [], Spawning);
    run, s := LabelMarks(front, before, k, q);
    run, s := Act(run, s, Run(i, Succeeds), q);
    assert s.procs == before.procs + [p];
    run, s := Act(run, s, Run(i, Succeeds), q);
    assert s.procs == before.procs + [p.(pc := Creating)];
    run, s := Act(run, s, Run(i, Succeeds), q);
    assert s.procs == before.procs + [p.(pc := Polling(MAX_POLLS))];
  }

  /** A creation becomes ready, and its task resolves the marker ... */
  lemma Resolves(front: seq<Action>, before: State, i: nat, conv: string, q: Key) returns (run: seq<Action>, s: State)
    requires Leads(front, before, q) && conv != "" && conv != PENDING
    requires i < |before.procs| && before.procs[i].pc == Polling(MAX_POLLS)
    ensures Leads(run, s, q)
    ensures s == before.(tables := before.tables.StoreConversation(before.procs[i].key, conv, before.now),
                         procs := before.procs[i := before.procs[i].(pc := Draining(conv))])
  {
    var p := before.procs[i];
    run, s := Act(front, before, Run(i, Ready(conv)), q);
    assert s.procs == before.procs[i := p.(pc := Storing(conv))];
    run, s := Act(run, s, Run(i, Succeeds), q);
    assert s.procs == before.procs[i := p.(pc := Draining(conv))];
  }

  /** ... drains an empty queue, and finishes. */
  lemma Finishes(front: seq<Action>, before: State, i: nat, q: Key) returns (run: seq<Action>, s: State)
    requires Leads(front, before, q)
    requires i < |before.procs| && before.procs[i].pc.Draining? && Of(before.tables.pending, before.procs[i].key) == []
    ensures Leads(run, s, q)
    ensures s.tables == before.tables.TakePending(before.procs[i].key).0 && s.now == before.now
    ensures s.procs == before.procs[i := before.procs[i].(pc := Finished, sent := [])]
  {
    var p := before.procs[i].(sent := []);
    var conv := before.procs[i].pc.into;
    run, s := Act(front, before, Run(i, Succeeds), q);
    assert s.procs == before.procs[i := p.(pc := Flushing(conv, []))];
    run, s := Act(run, s, Run(i, Succeeds), q);
    assert s.procs == before.procs[i := p.(pc := Reporting(conv))];
    run, s := Act(run, s, Run(i, Succeeds), q);
    assert s.procs == before.procs[i := p.(pc := Finished)];
  }

  /** A comment sees the marker ... */
  lemma CommentSeesMarker(k: Key, text: string) returns (run: seq<Action>, s: State)
    ensures Leads(run, s, k)
    ensures s == State(START.tables.StoreConversation(k, PENDING, 0.0),
                       [Process(k, Label([]), "", true, [], Polling(MAX_POLLS)),
                        Process(k, Comment(true, []), text, false, [], Queueing)],
                       0.0, map[k := 0], [], [])
  {
    run, s := LabelCreates([], START, k, k);
    var first, comment := s.procs[0], Process(k, Comment(true, []), text, false, [], LookingUp);
    run, s := Act(run, s, Arrive(k, Comment(true, []), text), k);
    assert s.procs == [first, comment];
    run, s := Act(run, s, Run(1, Succeeds), k);
    assert s.procs == [first, comment.(pc := Queueing)];
  }

  /** ... then the creation resolves, drains and finishes. */
  lemma ResolvedBehindComment(k: Key, text: string, conv: string) returns (run: seq<Action>, s: State)
    requires conv != "" && conv != PENDING
    ensures Leads(run, s, k)
    ensures s.tables == START.tables.StoreConversation(k, PENDING, 0.0).StoreConversation(k, conv, 0.0)
    ensures s.now == 0.0
    ensures s.procs == [Process(k, Label([]), "", true, [], Finished),
                        Process(k, Comment(true, []), text, false, [], Queueing)]
  {
    run, s := CommentSeesMarker(k, text);
    run, s := Resolves(run, s, 0, conv, k);
    run, s := Finishes(run, s, 0, k);
  }

  /** Look-up and queue are two transactions: a comment that saw the marker may queue after the
      creation task has resolved, drained and finished.  The message then waits for nobody. */
  lemma LateQueueingStrands(k: Key, text: string, conv: string) returns (run: seq<Action>)
    requires conv != "" && conv != PENDING
    ensures IsRun(START, run)
    ensures var end := After(START, run);
            && Quiescent(end) && Of(end.tables.pending, k) == [Message(0, k, text)]
            && !NotStranded(end, k) && end.tables.Lookup(k, end.now).1 == Some(conv)
  {
    var front, s := ResolvedBehindComment(k, text, conv);
    run := front + [Run(1, Succeeds)];
    Extend(front, Run(1, Succeeds));
    var end := After(START, run);
    OfAppend([], Message(0, k, text), k);
    assert end.tables.pending == [] + [Message(0, k, text)];
    forall i: nat | i < |end.procs| ensures !Drainer(end, i, k) && Ended(end.procs[i]) {
      assert i == 0 || i == 1;
    }
  }

  /** A label handler whose status comment raises leaves its marker to nobody. */
  lemma RaisingPostOrphansMarker(k: Key) returns (run: seq<Action>)
    ensures IsRun(START, run)
    ensures Quiescent(After(START, run)) && After(START, run).tables.IsPending(k)
  {
    var s: State;
    run, s := LabelMarks([], START, k, k);
    run, s := Act(run, s, Run(0, Raises), k);
    assert s.procs == [Process(k, Label([]), "", false, [], Aborted)];
  }

  /** A GitLab comment finds neither row nor link ... */
  lemma FindingNothing(front: seq<Action>, before: State, k: Key, issue: string, text: string)
    returns (run: seq<Action>, s: State)
    requires Leads(front, before, k) && k !in before.tables.conversations && k !in before.tables.links
    ensures Leads(run, s, k)
    ensures s == before.(procs := before.procs +
      [Process(k, Comment(false, [issue]), text, false, [], InferringRow(issue, []))])
  {
    var i, p := |before.procs|, Process(k, Comment(false, [issue]), text, false, [], LookingUp);
    run, s := Act(front, before, Arrive(k, Comment(false, [issue]), text), k);
    assert s.procs == before.procs + [p];
    run, s := Act(run, s, Run(i, Succeeds), k);
    assert s.procs == before.procs + [p.(pc := LookingUpLink)];
    assert [issue][1..] == [];
    run, s := Act(run, s, Run(i, Succeeds), k);
    assert s.procs == before.procs + [p.(pc := InferringRow(issue, []))];
  }

  /** ... infers the marker from a Jira key whose conversation is being created ... */
  lemma InferringMarker(k: Key, issue: string, text: string) returns (run: seq<Action>, s: State)
    requires k != IssueKey(issue)
    ensures Leads(run, s, k)
    ensures s.tables == START.tables.StoreConversation(IssueKey(issue), PENDING, 0.0) && s.now == 0.0
    ensures s.procs == [Process(IssueKey(issue), Label([]), "", true, [], Polling(MAX_POLLS)),
                        Process(k, Comment(false, [issue]), text, false, [], Linking(PENDING))]
  {
    run, s := LabelCreates([], START, IssueKey(issue), k);
    run, s := FindingNothing(run, s, k, issue, text);
    var jira, gitlab := s.procs[0], s.procs[1];
    run, s := Act(run, s, Run(1, Succeeds), k);
    assert s.procs == [jira, gitlab.(pc := Linking(PENDING))];
  }

  /** ... links it, and queues for a resource nobody creates. */
  lemma InferringQueues(k: Key, issue: string, text: string) returns (run: seq<Action>, s: State)
    requires k != IssueKey(issue)
    ensures Leads(run, s, k)
    ensures s.tables == START.tables.StoreConversation(IssueKey(issue), PENDING, 0.0).LinkResource(PENDING, k).0
                                    .QueueMessage(k, text)
    ensures s.now == 0.0
    ensures s.procs == [Process(IssueKey(issue), Label([]), "", true, [], Polling(MAX_POLLS)),
                        Process(k, Comment(false, [issue]), text, false, [], Finished)]
  {
    run, s := InferringMarker(k, issue, text);
    var jira, gitlab := s.procs[0], s.procs[1];
    run, s := Act(run, s, Run(1, Succeeds), k);
    assert s.procs == [jira, gitlab.(pc := Queueing)];
    run, s := Act(run, s, Run(1, Succeeds), k);
    assert s.procs == [jira, gitlab.(pc := Finished)];
  }

  /** Cross-link inference while a Jira conversation is pending: the comment waits under the GitLab
      resource, the Jira task drains only its own key, and the resource stays linked to the marker
      for good, although every look-up was fused with its queueing. */
  lemma InferredMarkerStrands(k: Key, issue: string, text: string, conv: string) returns (run: seq<Action>)
    requires k != IssueKey(issue) && conv != "" && conv != PENDING
    ensures IsRun(START, run) && FusedQueueing(START, run, k)
    ensures var end := After(START, run);
            && Quiescent(end) && Of(end.tables.pending, k) == [Message(0, k, text)] && !NotStranded(end, k)
            && end.tables.Lookup(IssueKey(issue), end.now).1 == Some(conv)
            && end.tables.GetLink(k) == Some(PENDING)
  {
    var end: State;
    run, end := InferringQueues(k, issue, text);
    var pending := end.tables.pending;
    assert pending == [] + [Message(0, k, text)];
    OfAppend([], Message(0, k, text), k);
    OfAppend([], Message(0, k, text), IssueKey(issue));
    OfWithout(pending, IssueKey(issue), k);
    run, end := Resolves(run, end, 0, conv, k);
    run, end := Finishes(run, end, 0, k);
    forall i: nat | i < |end.procs| ensures !Drainer(end, i, k) && Ended(end.procs[i]) {
      assert i == 0 || i == 1;
    }
  }

  /** Two creators on one key: the first fails and sees the marker ... */
  lemma FirstSeesMarker(k: Key) returns (run: seq<Action>, s: State)
    ensures Leads(run, s, k)
    ensures s.tables.IsPending(k) && s.now == 0.0
    ensures s.procs == [Process(k, Label([]), "", true, [], ClearRow(false)),
                        Process(k, Label([]), "", true, [], Polling(MAX_POLLS))]
  {
    var p := Process(k, Label([]), "", true, [], Polling(MAX_POLLS));
    run, s := LabelCreates([], START, k, k);
    run, s := LabelCreates(run, s, k, k);
    assert s.procs == [p, p];
    run, s := Act(run, s, Run(0, Fails), k);
    assert s.procs == [p.(pc := ClearLookup(false)), p];
    run, s := Act(run, s, Run(0, Succeeds), k);
    assert s.procs == [p.(pc := ClearRow(false)), p];
  }

  /** ... the second resolves it, and the first one's clearing deletes the resolved row. */
  lemma FailureClearsTheOthersMapping(k: Key, conv: string) returns (run: seq<Action>, last: Action)
    requires conv != "" && conv != PENDING
    ensures IsRun(START, run) && Enabled(After(START, run), last)
    ensures var before := After(START, run);
            && before.tables.Lookup(k, before.now).1 == Some(conv)
            && |before.procs| == 2 && before.procs[1].pc == Draining(conv)
            && k !in Apply(before, last).tables.conversations
  {
    var s: State;
    last := Run(0, Succeeds);
    run, s := FirstSeesMarker(k);
    run, s := Resolves(run, s, 1, conv, k);
  }
}
