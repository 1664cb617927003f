/** The processes of the protocol, each run without interference: they do what the store methods do. */
module Undisturbed {
  import opened Options
  import opened Tables
  import opened Protocol
  import opened Inference
  import opened Creation

  // ------------------------------------------------------------------ one process, one world

  /** All the outside answers to one process: its send to an existing conversation, its status comment,
      whether the creation is accepted, how many polls stay undecided before it is decided, the sends
      of the flush, and whether the final report raises. */
  datatype World = World(
    forwarding: Delivery,
    posted: Delivery,
    accepted: bool,
    polls: nat,
    created: Created,
    answers: seq<Delivery>,
    reportRaises: bool)

  function Answer(d: Delivery): Outcome {
    match d
    case Delivered => Succeeds
    case Refused => Fails
    case SendRaised => Raises
  }

  function Decided(created: Created): Outcome {
    match created
    case Created(conv) => Ready(conv)
    case NotCreated => Fails
    case CreateRaised => Raises
  }

  /** What the world answers the process where it stands. */
  function Reply(w: World, p: Process): Outcome {
    match p.pc
    case Forwarding(_) => Answer(w.forwarding)
    case Posting => Answer(w.posted)
    case Creating => if w.accepted then Succeeds else Decided(w.created)
    case Polling(left) => if MAX_POLLS < w.polls + left then Succeeds else Decided(w.created)
    case Flushing(_, rest) => if rest != [] && |p.sent| < |w.answers| then Answer(w.answers[|p.sent|]) else Succeeds
    case Reporting(_) => if w.reportRaises then Raises else Succeeds
    case ReportingError => if w.reportRaises then Raises else Succeeds
    case _ => Succeeds
  }

  /** Step `j` of the path is process `i` going on with the world's answer. */
  predicate Linked(path: seq<State>, i: nat, w: World, j: nat) {
    && j + 1 < |path| && i < |path[j].procs|
    && Allowed(path[j].procs[i], Reply(w, path[j].procs[i]))
    && path[j + 1] == Advance(path[j], i, Reply(w, path[j].procs[i]))
  }

  predicate IsPath(path: seq<State>, i: nat, w: World, s: State, end: State) {
    && path != [] && path[0] == s && path[|path| - 1] == end
    && forall j: nat | j + 1 < |path| :: Linked(path, i, w, j)
  }

  /** Process `i` gets from one state to the other on its own. */
  ghost predicate Reaches(s: State, i: nat, w: World, end: State) {
    exists path :: IsPath(path, i, w, s, end)
  }

  lemma Go(s: State, i: nat, w: World) returns (s': State)
    requires i < |s.procs| && Allowed(s.procs[i], Reply(w, s.procs[i]))
    ensures s' == Advance(s, i, Reply(w, s.procs[i])) && Reaches(s, i, w, s')
  {
    s' := Advance(s, i, Reply(w, s.procs[i]));
    assert Linked([s, s'], i, w, 0);
    assert IsPath([s, s'], i, w, s, s');
  }

  lemma Stay(s: State, i: nat, w: World)
    ensures Reaches(s, i, w, s)
  {
    assert IsPath([s], i, w, s, s);
  }

  lemma Join(s: State, i: nat, w: World, mid: State, end: State)
    requires Reaches(s, i, w, mid) && Reaches(mid, i, w, end)
    ensures Reaches(s, i, w, end)
  {
    var p :| IsPath(p, i, w, s, mid);
    var q :| IsPath(q, i, w, mid, end);
    var path := p + q[1..];
    forall j: nat | j + 1 < |path| ensures Linked(path, i, w, j) {
      if j + 1 < |p| {
        assert Linked(p, i, w, j);
      } else {
        assert Linked(q, i, w, j + 1 - |p|);
        assert path[j] == q[j + 1 - |p|];
      }
    }
    assert IsPath(path, i, w, s, end);
  }

  /** Such a process is a run of the protocol. */
  lemma ReachesIsRun(s: State, i: nat, w: World, end: State) returns (run: seq<Action>)
    requires Reaches(s, i, w, end)
    ensures IsRun(s, run) && After(s, run) == end
    ensures forall a :: a in run ==> a.Run? && a.i == i
  {
    var path: seq<State> :| IsPath(path, i, w, s, end);
    run := [];
    for n := 0 to |path| - 1
      invariant IsRun(s, run) && After(s, run) == path[n]
      invariant forall a :: a in run ==> a.Run? && a.i == i
    {
      assert Linked(path, i, w, n);
      var next := run + [Run(i, Reply(w, path[n].procs[i]))];
      assert next[..|run|] == run;
      run := next;
    }
  }

  /** The process moves to `pc`, leaving `tables`; nobody else moves. */
  ghost predicate Moves(s: State, i: nat, w: World, tables: Tables, pc: Pc, end: State)
    requires i < |s.procs|
  {
    && Reaches(s, i, w, end)
    && end.tables == tables && end.now == s.now
    && end.procs == s.procs[i := s.procs[i].(pc := pc)]
  }

  // ------------------------------------------------------------------ inference

  /** What process `i` has done once a key is tried: linked what it led to, or gone on to the others. */
  ghost predicate Tried(s: State, i: nat, w: World, t: Tables, found: Option<string>, more: seq<string>, end: State)
    requires i < |s.procs|
  {
    var p := s.procs[i];
    if Truthy(found) then Moves(s, i, w, t.LinkResource(found.value, p.key).0, Decide(p, found), end)
    else Moves(s, i, w, t, TryIssues(p, more), end)
  }

  /** A found conversation is linked. */
  lemma LinksFound(s: State, i: nat, w: World, mid: State, found: string, more: seq<string>) returns (end: State)
    requires i < |s.procs| && Moves(s, i, w, mid.tables, Linking(found), mid) && found != ""
    ensures Tried(s, i, w, mid.tables, Some(found), more, end)
  {
    end := Go(mid, i, w);
    Join(s, i, w, mid, end);
    assert s.procs[i := mid.procs[i]][i := end.procs[i]] == s.procs[i := end.procs[i]];
  }

  lemma LinkTriedAlone(s: State, i: nat, w: World, issue: string, more: seq<string>) returns (end: State)
    requires i < |s.procs| && s.procs[i].pc == InferringLink(issue, more)
    ensures Tried(s, i, w, s.tables, s.tables.GetLink(IssueKey(issue)), more, end)
  {
    end := Go(s, i, w);
    if Truthy(s.tables.GetLink(IssueKey(issue))) {
      end := LinksFound(s, i, w, end, s.tables.GetLink(IssueKey(issue)).value, more);
    }
  }

  lemma TicketTriedAlone(s: State, i: nat, w: World, issue: string, more: seq<string>) returns (end: State)
    requires i < |s.procs| && s.procs[i].pc == InferringTicket(issue, more)
    ensures Tried(s, i, w, s.tables, Or(s.tables.GetTicket(issue), s.tables.GetLink(IssueKey(issue))), more, end)
  {
    var s1 := Go(s, i, w);
    if Truthy(s.tables.GetTicket(issue)) {
      end := LinksFound(s, i, w, s1, s.tables.GetTicket(issue).value, more);
    } else {
      end := LinkTriedAlone(s1, i, w, issue, more);
      Join(s, i, w, s1, end);
    }
  }

  /** Trying one key: its row, its ticket, its link. */
  lemma TryingAlone(s: State, i: nat, w: World, issue: string, more: seq<string>) returns (end: State)
    requires i < |s.procs| && s.procs[i].pc == InferringRow(issue, more)
    ensures Tried(s, i, w, s.tables.Lookup(IssueKey(issue), s.now).0, Match(s.tables, issue, s.now), more, end)
  {
    var s1 := Go(s, i, w);
    var row := s.tables.Lookup(IssueKey(issue), s.now).1;
    if Truthy(row) {
      end := LinksFound(s, i, w, s1, row.value, more);
    } else {
      end := TicketTriedAlone(s1, i, w, issue, more);
      Join(s, i, w, s1, end);
    }
  }

  /** A handler that infers decides as the inference loop does, in the database the loop leaves. */
  lemma {:induction false} InferringAlone(s: State, i: nat, w: World, issues: seq<string>) returns (end: State)
    requires i < |s.procs| && issues != [] && s.procs[i].pc == InferringRow(issues[0], issues[1..])
    ensures var (t', found) := Infer(s.tables, issues, s.procs[i].key, s.now);
            Moves(s, i, w, t', Decide(s.procs[i], found), end)
    decreases |issues|
  {
    end := TryingAlone(s, i, w, issues[0], issues[1..]);
    if !Truthy(Match(s.tables, issues[0], s.now)) && |issues| > 1 {
      var tried := end;
      end := InferringAlone(tried, i, w, issues[1..]);
      Join(s, i, w, tried, end);
    }
  }

  // ------------------------------------------------------------------ a comment

  /** Where a comment stands once its look-ups are done. */
  predicate Stands(p: Process, existing: Option<string>, pc: Pc)
    requires p.kind.Comment?
  {
    if existing == None || existing == Some("") then (if p.kind.mention then pc == Posting else pc == Finished)
    else if existing == Some(PENDING) then pc == Queueing
    else pc == Forwarding(existing.value)
  }

  lemma DecidesToStand(p: Process, existing: Option<string>)
    requires p.kind.Comment?
    ensures Stands(p, existing, Decide(p, existing))
  {
  }

  /** Undisturbed, a comment finds what the look-ups of the store find, in the database they leave. */
  lemma CommentLooksUp(s: State, i: nat, w: World) returns (end: State)
    requires i < |s.procs| && s.procs[i].pc.LookingUp? && s.procs[i].kind.Comment?
    ensures var (t', existing) := Existing(s.tables, s.procs[i].key, s.procs[i].kind.issues, s.now);
            |end.procs| == |s.procs| && Moves(s, i, w, t', end.procs[i].pc, end)
            && Stands(s.procs[i], existing, end.procs[i].pc)
  {
    var p := s.procs[i];
    var row, link := s.tables.Lookup(p.key, s.now).1, s.tables.GetLink(p.key);
    end := Go(s, i, w);
    if Truthy(row) {
      DecidesToStand(p, row);
    } else {
      var s1 := end;
      end := Go(s1, i, w);
      if !Truthy(link) && p.kind.issues != [] {
        var s2 := end;
        end := InferringAlone(s2, i, w, p.kind.issues);
        Join(s1, i, w, s2, end);
        DecidesToStand(p, Infer(s1.tables, p.kind.issues, p.key, s.now).1);
      } else {
        DecidesToStand(p, link);
      }
      Join(s, i, w, s1, end);
    }
  }

  /** A status comment is posted; unless that raises, the marker follows, and the creation task. */
  lemma PostsAndMarks(s: State, i: nat, w: World) returns (end: State)
    requires i < |s.procs| && s.procs[i].pc == Posting && s.procs[i].kind.Comment?
    ensures Reaches(s, i, w, end) && |end.procs| == |s.procs|
    ensures var p := s.procs[i];
            if w.posted.SendRaised? then end.tables == s.tables && end.procs[i].pc == Aborted
            else end.tables == s.tables.StoreConversation(p.key, PENDING, s.now)
                 && end.procs[i] == p.(pc := Spawning, noted := w.posted.Delivered?)
  {
    end := Go(s, i, w);
    if !w.posted.SendRaised? {
      var s1 := end;
      end := Go(s1, i, w);
      Join(s, i, w, s1, end);
    }
  }

  lemma StandsHandled(s: State, i: nat, w: World) returns (end: State)
    requires i < |s.procs| && s.procs[i].kind.Comment?
    requires s.procs[i].pc.Queueing? || s.procs[i].pc.Forwarding? || s.procs[i].pc.Posting? || s.procs[i].pc.Finished?
    ensures Reaches(s, i, w, end) && |end.procs| == |s.procs|
    ensures var p := s.procs[i];
            var creates := p.pc.Posting? || (p.pc.Forwarding? && w.forwarding.Refused?);
            && end.tables == (if p.pc.Queueing? then s.tables.QueueMessage(p.key, p.text)
                              else if creates && !w.posted.SendRaised? then
                                s.tables.StoreConversation(p.key, PENDING, s.now)
                              else s.tables)
            && (if creates && !w.posted.SendRaised? then
                  end.procs[i] == p.(pc := Spawning, noted := w.posted.Delivered?)
                else end.procs[i].pc in {Finished, Aborted})
  {
    match s.procs[i].pc
    case Posting => end := PostsAndMarks(s, i, w);
    case Finished =>
      Stay(s, i, w);
      end := s;
    case Forwarding(_) =>
      end := Go(s, i, w);
      if w.forwarding.Refused? {
        var s1 := end;
        end := PostsAndMarks(s1, i, w);
        Join(s, i, w, s1, end);
      }
    case Queueing => end := Go(s, i, w);
  }

  /** A comment that arrives and is not disturbed ends as the store's handler does, whatever the world
      answers: exactly when that starts a creation, its process goes on as the creation task. */
  lemma CommentHandled(s: State, k: Key, text: string, mention: bool, issues: seq<string>, w: World)
    returns (end: State, handled: Handled)
    ensures var arrived, i := Apply(s, Arrive(k, Comment(mention, issues), text)), |s.procs|;
            && Reaches(arrived, i, w, end) && |end.procs| == i + 1
            && HandledAs(s.tables, k, text, mention, issues, w.forwarding, w.posted, s.now, end.tables, handled)
            && (if handled.CreationStarted? then
                  end.procs[i] == Process(k, Comment(mention, issues), text, w.posted.Delivered?, [], Spawning)
                else end.procs[i].pc in {Finished, Aborted})
  {
    var arrived, i := Apply(s, Arrive(k, Comment(mention, issues), text)), |s.procs|;
    var mid := CommentLooksUp(arrived, i, w);
    var existing := Existing(s.tables, k, issues, s.now).1;
    end := StandsHandled(mid, i, w);
    Join(arrived, i, w, mid, end);
    handled := if mid.procs[i].pc.Finished? then Ignored
               else if mid.procs[i].pc.Queueing? then Queued
               else if mid.procs[i].pc.Forwarding? && w.forwarding.Delivered? then Forwarded(existing.value)
               else if end.procs[i].pc.Spawning? then CreationStarted
               else HandlerRaised;
  }

  // ------------------------------------------------------------------ a label

  /** A label handler infers and links first if Jira keys are mentioned, marks in any case, and goes on
      as the creation task unless its status comment raises. */
  lemma LabelHandled(s: State, k: Key, text: string, issues: seq<string>, w: World) returns (end: State)
    ensures var arrived, i := Apply(s, Arrive(k, Label(issues), text)), |s.procs|;
            && Reaches(arrived, i, w, end) && |end.procs| == i + 1
            && end.tables == Infer(s.tables, issues, k, s.now).0.StoreConversation(k, PENDING, s.now)
            && (if w.posted.SendRaised? then end.procs[i].pc == Aborted
                else end.procs[i] == Process(k, Label(issues), text, w.posted.Delivered?, [], Spawning))
  {
    var arrived, i := Apply(s, Arrive(k, Label(issues), text)), |s.procs|;
    var inferred := arrived;
    if issues == [] {
      Stay(arrived, i, w);
    } else {
      inferred := InferringAlone(arrived, i, w, issues);
    }
    var marked := Go(inferred, i, w);
    Join(arrived, i, w, inferred, marked);
    end := Go(marked, i, w);
    Join(arrived, i, w, marked, end);
  }

  // ------------------------------------------------------------------ the creation task

  /** An accepted creation becomes ready before the last of 310 polls; only a failure comes after it;
      and only a posted comment can be reported to. */
  predicate Possible(w: World, noted: bool) {
    && (w.created.Created? ==> w.accepted && w.polls < 310 && w.created.conversation !in {"", PENDING})
    && w.polls <= 310 && (w.polls == 310 ==> w.created.NotCreated?)
    && (w.reportRaises ==> noted)
  }

  /** Undecided polls count down from 310 and change nothing. */
  lemma {:induction false} PollsAlone(s: State, i: nat, w: World, m: nat) returns (end: State)
    requires i < |s.procs| && s.procs[i].pc == Polling(MAX_POLLS) && m <= w.polls <= 310
    ensures Moves(s, i, w, s.tables, Polling(310 - m), end)
  {
    if m == 0 {
      Stay(s, i, w);
      end := s;
    } else {
      var mid := PollsAlone(s, i, w, m - 1);
      end := Go(mid, i, w);
      Join(s, i, w, mid, end);
    }
  }

  lemma SeesRow(s: State, i: nat, w: World, handled: bool) returns (end: State)
    requires i < |s.procs| && s.procs[i].pc == ClearLookup(handled)
    ensures |end.procs| == |s.procs| && Moves(s, i, w, end.tables, end.procs[i].pc, end)
    ensures var k := s.procs[i].key;
            if s.tables.Lookup(k, s.now).1 == Some(PENDING) then
              end.procs[i].pc == ClearRow(handled) && end.tables == s.tables && s.tables.IsPending(k)
            else end.procs[i].pc == Discarding(handled) && end.tables.TakePending(k).0 == Cleared(s.tables, k)
  {
    TakenTwice(s.tables.pending, s.procs[i].key);
    end := Go(s, i, w);
  }

  lemma ClearsRow(s: State, i: nat, w: World, handled: bool) returns (end: State)
    requires i < |s.procs| && s.procs[i].pc == ClearLookup(handled)
    ensures Moves(s, i, w, end.tables, Discarding(handled), end)
    ensures end.tables.TakePending(s.procs[i].key).0 == Cleared(s.tables, s.procs[i].key)
  {
    end := SeesRow(s, i, w, handled);
    if end.procs[i].pc == ClearRow(handled) {
      var looked := end;
      end := Go(looked, i, w);
      Join(s, i, w, looked, end);
    }
  }

  /** After 310 undecided polls the creation has failed; before, every answer is possible. */
  lemma PollsRunOut(p: Process, left: nat, o: Outcome)
    requires p.pc == Polling(left)
    ensures Allowed(p, o) <==> o.Fails? || (left > 0 && (o.Ready? ==> o.conv !in {"", PENDING}))
  {
  }

  /** Clearing removes marker and queue, and reports the failure unless it follows an exception. */
  lemma ClearsAlone(s: State, i: nat, w: World, handled: bool) returns (end: State)
    requires i < |s.procs| && s.procs[i].pc == ClearLookup(handled)
    ensures Moves(s, i, w, Cleared(s.tables, s.procs[i].key), if handled then Finished else ReportingError, end)
  {
    var cleared := ClearsRow(s, i, w, handled);
    end := Go(cleared, i, w);
    Join(s, i, w, cleared, end);
  }

  lemma ClearedTwice(t: Tables, k: Key)
    ensures Cleared(Cleared(t, k), k) == Cleared(t, k)
  {
    TakenTwice(t.pending, k);
  }

  /** A task that failed is finished once it has cleared, also when its report raises. */
  lemma FailsAlone(s: State, i: nat, w: World, handled: bool) returns (end: State)
    requires i < |s.procs| && s.procs[i].pc == ClearLookup(handled) && (w.reportRaises ==> s.procs[i].noted)
    ensures Moves(s, i, w, Cleared(s.tables, s.procs[i].key), Finished, end)
  {
    var k := s.procs[i].key;
    end := ClearsAlone(s, i, w, handled);
    if !handled {
      var cleared := end;
      end := Go(cleared, i, w);
      Join(s, i, w, cleared, end);
      if w.reportRaises {
        var raised := end;
        end := ClearsAlone(raised, i, w, true);
        Join(s, i, w, raised, end);
        ClearedTwice(s.tables, k);
      }
    }
  }

  /** The process has sent a part of its batch and is about to send the rest. */
  predicate Flushes(p: Process, conv: string, batch: seq<Message>, j: nat) {
    j <= |batch| && p.pc == Flushing(conv, batch[j..]) && p.sent == batch[..j]
  }

  /** A flush sends in order up to the first that raises; a refused send does not stop it. */
  lemma {:induction false} FlushesAlone(s: State, i: nat, w: World, conv: string, batch: seq<Message>, j: nat)
    returns (end: State)
    requires i < |s.procs| && Flushes(s.procs[i], conv, batch, j)
    requires Attempted(w.answers, j) == j && (0 < j <= |w.answers| ==> !w.answers[j - 1].SendRaised?)
    ensures Reaches(s, i, w, end) && end.tables == s.tables && end.now == s.now && |end.procs| == |s.procs|
    ensures var p', n := end.procs[i], Attempted(w.answers, |batch|);
            && n <= |batch| && p'.sent == batch[..n]
            && (p'.pc == Reporting(conv) || p'.pc == ClearLookup(true))
            && p'.key == s.procs[i].key && p'.noted == s.procs[i].noted
    decreases |batch| - j
  {
    end := Go(s, i, w);
    if j == |batch| {
      assert batch[..j] == batch;
    } else {
      var s1 := end;
      assert batch[j..][1..] == batch[j + 1..] && batch[..j] + [batch[j]] == batch[..j + 1];
      if j < |w.answers| && w.answers[j].SendRaised? {
        AttemptedStays(w.answers, j + 1, |batch|, true);
      } else {
        end := FlushesAlone(s1, i, w, conv, batch, j + 1);
        Join(s, i, w, s1, end);
      }
    }
  }

  function Texts(ms: seq<Message>): seq<string> {
    seq(|ms|, j requires 0 <= j < |ms| => ms[j].text)
  }

  lemma DrainsAlone(s: State, i: nat, w: World, conv: string) returns (end: State)
    requires i < |s.procs| && s.procs[i].pc == Storing(conv)
    ensures Reaches(s, i, w, end) && end.now == s.now && |end.procs| == |s.procs|
    ensures var p := s.procs[i];
            && end.tables == Resolved(s.tables, p.key, conv, s.now)
            && end.procs[i] == p.(pc := Flushing(conv, Of(s.tables.pending, p.key)), sent := [])
  {
    var stored := Go(s, i, w);
    end := Go(stored, i, w);
    Join(s, i, w, stored, end);
  }

  /** After the flush nothing is left to clear: a report or a send that raised changes no table. */
  lemma ReportsAlone(s: State, i: nat, w: World) returns (end: State)
    requires i < |s.procs| && (s.procs[i].pc.Reporting? || s.procs[i].pc == ClearLookup(true))
    requires w.reportRaises ==> s.procs[i].noted
    requires Cleared(s.tables, s.procs[i].key) == s.tables
    ensures Moves(s, i, w, s.tables, Finished, end)
  {
    if s.procs[i].pc.Reporting? {
      end := Go(s, i, w);
      if w.reportRaises {
        var raised := end;
        end := ClearsAlone(raised, i, w, true);
        Join(s, i, w, raised, end);
      }
    } else {
      end := ClearsAlone(s, i, w, true);
    }
  }

  lemma ResolvedIsCleared(t: Tables, k: Key, conv: string, now: real)
    requires conv != PENDING
    ensures Cleared(Resolved(t, k, conv, now), k) == Resolved(t, k, conv, now)
  {
    TakenTwice(t.pending, k);
  }

  /** From a stored conversation on: drained, flushed and reported. */
  lemma ResolvesAlone(s: State, i: nat, w: World, conv: string) returns (end: State)
    requires i < |s.procs| && s.procs[i].pc == Storing(conv) && conv != PENDING
    requires w.reportRaises ==> s.procs[i].noted
    ensures Reaches(s, i, w, end) && |end.procs| == |s.procs| && end.procs[i].pc == Finished
    ensures var p := s.procs[i];
            && end.tables == Resolved(s.tables, p.key, conv, s.now)
            && SentOf(Of(s.tables.pending, p.key), w.answers, Texts(end.procs[i].sent))
  {
    var batch := Of(s.tables.pending, s.procs[i].key);
    var drained := DrainsAlone(s, i, w, conv);
    assert batch[0..] == batch && batch[..0] == [];
    var flushed := FlushesAlone(drained, i, w, conv, batch, 0);
    Join(s, i, w, drained, flushed);
    ResolvedIsCleared(s.tables, s.procs[i].key, conv, s.now);
    end := ReportsAlone(flushed, i, w);
    Join(s, i, w, flushed, end);
  }

  /** Up to the decision: accepted and polled, or refused. */
  lemma DecidesAlone(s: State, i: nat, w: World) returns (end: State)
    requires i < |s.procs| && s.procs[i].pc == Spawning && Possible(w, s.procs[i].noted)
    ensures Moves(s, i, w, s.tables, match w.created
                                     case Created(conv) => Storing(conv)
                                     case NotCreated => ClearLookup(false)
                                     case CreateRaised => ClearLookup(true), end)
  {
    var creating := Go(s, i, w);
    end := Go(creating, i, w);
    Join(s, i, w, creating, end);
    if w.accepted {
      var polling := end;
      var polled := PollsAlone(polling, i, w, w.polls);
      Join(s, i, w, polling, polled);
      end := Go(polled, i, w);
      Join(s, i, w, polled, end);
    }
  }

  /** An undisturbed creation task finishes, and leaves and sends what the store's does, whatever the
      world answers. */
  lemma TaskHandled(s: State, i: nat, w: World) returns (end: State)
    requires i < |s.procs| && s.procs[i].pc == Spawning && s.procs[i].sent == [] && Possible(w, s.procs[i].noted)
    ensures Reaches(s, i, w, end) && |end.procs| == |s.procs| && end.procs[i].pc == Finished
    ensures CreatedAs(s.tables, s.procs[i].key, w.created, w.answers, s.now, end.tables, Texts(end.procs[i].sent))
  {
    var decided := DecidesAlone(s, i, w);
    match w.created
    case Created(conv) =>
      end := ResolvesAlone(decided, i, w, conv);
      Join(s, i, w, decided, end);
    case NotCreated =>
      end := FailsAlone(decided, i, w, false);
      Join(s, i, w, decided, end);
    case CreateRaised =>
      end := FailsAlone(decided, i, w, true);
      Join(s, i, w, decided, end);
  }
}
