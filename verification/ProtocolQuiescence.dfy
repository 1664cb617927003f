/** Once webhooks stop, the pending-conversation protocol runs dry. */
module ProtocolQuiescence {
  import opened Options
  import opened Tables
  import opened Protocol
  import opened ProtocolSafety

  /** An upper bound on the steps left to a process, counting one for each message it has yet to send. */
  function Rank(p: Process): nat {
    match p.pc
    case Finished => 0
    case Aborted => 0
    case Discarding(handled) => if handled then 1 else 5
    case ClearRow(handled) => if handled then 2 else 6
    case ClearLookup(handled) => if handled then 3 else 7
    case ReportingError => 4
    case Reporting(_) => 4
    case Flushing(_, rest) => 5 + |rest|
    case Draining(_) => 6
    case Storing(_) => 7
    case Polling(left) => 8 + left
    case Creating => 9 + MAX_POLLS
    case Spawning => 10 + MAX_POLLS
    case Marking => 12 + MAX_POLLS
    case Posting => if p.kind.Label? then 11 + MAX_POLLS else 13 + MAX_POLLS
    case Forwarding(_) => 14 + MAX_POLLS
    case Queueing => 2
    case Linking(_) => 15 + MAX_POLLS
    case InferringLink(_, more) => 16 + MAX_POLLS + 3 * |more|
    case InferringTicket(_, more) => 17 + MAX_POLLS + 3 * |more|
    case InferringRow(_, more) => 18 + MAX_POLLS + 3 * |more|
    case LookingUpLink => 16 + MAX_POLLS + 3 * |p.kind.issues|
    case LookingUp => 17 + MAX_POLLS + 3 * |p.kind.issues|
  }

  function Ranks(procs: seq<Process>): nat {
    if procs == [] then 0 else Ranks(procs[..|procs| - 1]) + Rank(procs[|procs| - 1])
  }

  function Measure(s: State): nat {
    |s.tables.pending| + Ranks(s.procs)
  }

  lemma {:induction false} RanksUpdate(procs: seq<Process>, i: nat, p: Process)
    requires i < |procs|
    ensures Ranks(procs[i := p]) + Rank(procs[i]) == Ranks(procs) + Rank(p)
  {
    var front := procs[..|procs| - 1];
    if i == |procs| - 1 {
      assert procs[i := p][..i] == front;
    } else {
      RanksUpdate(front, i, p);
      assert procs[i := p][..|procs| - 1] == front[i := p];
    }
  }

  lemma {:induction false} SplitLength(ms: seq<Message>, k: Key)
    ensures |Of(ms, k)| + |Without(ms, k)| == |ms|
  {
    if ms != [] {
      SplitLength(ms[..|ms| - 1], k);
    }
  }

  /** However a comment is decided, less is left than while it was looking things up. */
  lemma DecidedRank(p: Process, existing: Option<string>, issues: seq<string>)
    ensures Rank(p.(pc := Decide(p, existing))) <= 14 + MAX_POLLS
    ensures Rank(p.(pc := TryIssues(p, issues))) <= 15 + MAX_POLLS + 3 * |issues|
  {
  }

  /** The process is still finding out about an existing conversation. */
  predicate Looking(p: Process) {
    || p.pc.LookingUp? || p.pc.LookingUpLink?
    || p.pc.InferringRow? || p.pc.InferringTicket? || p.pc.InferringLink? || p.pc.Linking?
  }

  /** Looking up lowers the rank: every Jira key is tried once. */
  lemma LookupRankDrops(t: Tables, now: real, p: Process, o: Outcome)
    requires Allowed(p, o)
    requires Looking(p)
    ensures Rank(p.(pc := NextPc(t, now, p, o))) < Rank(p)
  {
    match p.pc
    case LookingUp =>
      DecidedRank(p, t.Lookup(p.key, now).1, []);
    case LookingUpLink =>
      DecidedRank(p, t.GetLink(p.key), p.kind.issues);
    case InferringRow(_, _) =>
    case InferringTicket(_, _) =>
    case InferringLink(_, more) =>
      DecidedRank(p, None, more);
    case Linking(conv) =>
      DecidedRank(p, Some(conv), []);
  }

  /** Moving on lowers the rank, except that draining turns queued messages into messages to send. */
  lemma RankDrops(t: Tables, now: real, p: Process, o: Outcome)
    requires Allowed(p, o)
    ensures var rank' := Rank(p.(pc := NextPc(t, now, p, o)));
            if p.pc.Draining? then rank' < Rank(p) + |Of(t.pending, p.key)|
            else if p.pc.Queueing? then rank' + 1 < Rank(p)
            else rank' < Rank(p)
  {
    if Looking(p) {
      LookupRankDrops(t, now, p, o);
    } else {
      match p.pc
      case Posting =>
      case Creating =>
      case Polling(_) =>
      case Flushing(_, _) =>
      case _ =>
    }
  }

  lemma QueueLength(s: State, i: nat)
    requires i < |s.procs|
    ensures var p, n, n' := s.procs[i], |s.tables.pending|, |Transact(s, i).tables.pending|;
            && n' <= n + (if p.pc.Queueing? then 1 else 0)
            && (p.pc.Draining? ==> n' + |Of(s.tables.pending, p.key)| == n)
  {
    QueueEffect(s, i);
    if DrainOf(s, i).Some? {
      SplitLength(s.tables.pending, DrainOf(s, i).value.key);
    }
  }

  lemma ActionSpends(s: State, a: Action)
    requires Enabled(s, a) && !a.Arrive?
    ensures a.Run? ==> Measure(Apply(s, a)) < Measure(s)
    ensures !a.Run? ==> Measure(Apply(s, a)) == Measure(s)
  {
    if a.Run? {
      QueueLength(s, a.i);
      RankDrops(s.tables, s.now, s.procs[a.i], a.o);
      RanksUpdate(s.procs, a.i, Advance(s, a.i, a.o).procs[a.i]);
    }
  }

  function Steps(actions: seq<Action>): nat {
    if actions == [] then 0
    else Steps(actions[..|actions| - 1]) + (if actions[|actions| - 1].Run? then 1 else 0)
  }

  /** Termination: without new webhooks, every interleaving takes at most `Measure` process steps,
      however links are written and time passes in between. */
  lemma {:induction false} EveryInterleavingTerminates(s: State, actions: seq<Action>)
    requires IsRun(s, actions)
    requires forall a :: a in actions ==> !a.Arrive?
    ensures Steps(actions) + Measure(After(s, actions)) <= Measure(s)
  {
    if actions != [] {
      var front := actions[..|actions| - 1];
      EveryInterleavingTerminates(s, front);
      ActionSpends(After(s, front), actions[|actions| - 1]);
    }
  }

  predicate Ended(p: Process) {
    p.pc.Finished? || p.pc.Aborted?
  }

  predicate Quiescent(s: State) {
    forall i | 0 <= i < |s.procs| :: Ended(s.procs[i])
  }

  /** Progress: a process is stuck only when it has ended. */
  lemma StuckIffEnded(p: Process)
    ensures (forall o :: !Allowed(p, o)) <==> Ended(p)
  {
    if !Ended(p) {
      assert Allowed(p, Succeeds) || Allowed(p, Fails);
    }
  }

  /** Whoever has ended neither holds a marker nor is about to drain a queue. */
  lemma RestIsIdle(s: State, k: Key)
    requires Quiescent(s)
    ensures s.tables.IsPending(k) ==> !LiveAt(s, k)
    ensures forall i: nat :: !Drainer(s, i, k)
  {
    forall i: nat | i < |s.procs| ensures !Holding(s.procs[i]) && !Drainer(s, i, k) {
      assert Ended(s.procs[i]);
    }
  }

  /** At rest, a marker is left exactly when its handler raised between marking and spawning and it
      has stood since. */
  lemma MarkerAtRestIff(s: State, actions: seq<Action>, k: Key)
    requires Initial(s) && IsRun(s, actions) && Quiescent(After(s, actions))
    ensures After(s, actions).tables.IsPending(k) <==> exists j: nat :: AbandonedAt(s, actions, k, j)
  {
    var end := After(s, actions);
    assert actions[..|actions|] == actions;
    RestIsIdle(end, k);
    if end.tables.IsPending(k) {
      var j := NotLiveIsAbandoned(s, actions, k);
    }
    if j: nat :| AbandonedAt(s, actions, k, j) {
      assert At(s, actions, |actions|).tables.IsPending(k);
    }
  }

  /** At rest, with queueing fused and the marker only in rows, a queue is empty unless it waits
      behind such a marker. */
  lemma QuiescentIsClean(s: State, actions: seq<Action>, k: Key)
    requires Initial(s) && IsRun(s, actions) && Quiescent(After(s, actions))
    requires FusedQueueing(s, actions, k) && MarkerOnlyInRow(s, actions, k)
    ensures Of(After(s, actions).tables.pending, k) == [] || exists j: nat :: AbandonedAt(s, actions, k, j)
  {
    var end := After(s, actions);
    MarkerAtRestIff(s, actions, k);
    if !end.tables.IsPending(k) {
      assert actions[..|actions|] == actions;
      FusedNeverStrands(s, actions, k, |actions|);
      RestIsIdle(end, k);
    }
  }
}
