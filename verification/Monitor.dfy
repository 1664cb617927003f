/** The status monitor: an in-memory cache of tracked conversations, backed by the conversation map. */
module Monitor {
  import opened Options
  import opened Statuses
  import opened Tables
  import ResourceIds

  datatype Tracked = Tracked(
    source: Source,
    resourceId: string,
    projectId: Option<int>,
    noteableType: Option<string>,
    noteableIid: Option<int>,
    noteId: Option<int>,
    githubOwner: Option<string>,
    githubRepo: Option<string>,
    githubNumber: Option<int>,
    slackChannel: Option<string>,
    slackTs: Option<string>,
    lastStatus: Option<Status>)

  /** Where a status update is posted. */
  datatype Target =
    | GithubComment(owner: string, repo: Option<string>, comment: int)
    | JiraComment(issue: string, comment: int)
    | GitlabNote(project: int, noteableType: Option<string>, iid: Option<int>, note: int)
    | SlackMessage(channel: string, ts: string)

  datatype Post = Post(target: Target, status: Status)

  predicate NonZero(n: Option<int>) {
    n.Some? && n.value != 0
  }

  function TargetOf(t: Tracked): Option<Target> {
    if t.source.Github? && Truthy(t.githubOwner) && NonZero(t.noteId) then
      Some(GithubComment(t.githubOwner.value, t.githubRepo, t.noteId.value))
    else if t.source.Jira? && t.resourceId != "" && NonZero(t.noteId) then
      Some(JiraComment(t.resourceId, t.noteId.value))
    else if t.source.Gitlab? && NonZero(t.projectId) && NonZero(t.noteId) then
      Some(GitlabNote(t.projectId.value, t.noteableType, t.noteableIid, t.noteId.value))
    else if t.source.Slack? && Truthy(t.slackChannel) && Truthy(t.slackTs) then
      Some(SlackMessage(t.slackChannel.value, t.slackTs.value))
    else None
  }

  // ------------------------------------------------------------------ one conversation

  /** A polled status, and whether posting an update of it would raise. */
  datatype Arrival = Arrival(status: Status, raises: bool)

  /** All a poll needs to know of a tracked conversation: where to post, and the last status seen. */
  datatype Seen = Seen(target: Option<Target>, last: Option<Status>)

  function See(t: Option<Tracked>): Option<Seen> {
    if t.Some? then Some(Seen(TargetOf(t.value), t.value.lastStatus)) else None
  }

  /** The poll posts an update, or tries to. */
  predicate Posts(v: Seen, a: Arrival) {
    v.last != Some(a.status) && v.target.Some?
  }

  /** The poll ends the tracking: the status is terminal, and no exception came before the end. */
  predicate Ends(v: Seen, a: Arrival) {
    Terminal(a.status) && !(Posts(v, a) && a.raises)
  }

  /** What one poll leaves tracked. */
  function Polled(v: Option<Seen>, polled: Option<Arrival>): Option<Seen> {
    if v.None? || polled.None? then v
    else if Ends(v.value, polled.value) then None
    else Some(v.value.(last := Some(polled.value.status)))
  }

  /** What one poll posts. */
  function PostsOf(v: Option<Seen>, polled: Option<Arrival>): seq<Post> {
    if v.Some? && polled.Some? && Posts(v.value, polled.value)
    then [Post(v.value.target.value, polled.value.status)]
    else []
  }

  function AllPosts(v: Option<Seen>, polls: seq<Option<Arrival>>): seq<Post>
    decreases |polls|
  {
    if polls == [] then [] else PostsOf(v, polls[0]) + AllPosts(Polled(v, polls[0]), polls[1..])
  }

  function AfterPolls(v: Option<Seen>, polls: seq<Option<Arrival>>): Option<Seen>
    decreases |polls|
  {
    if polls == [] then v else AfterPolls(Polled(v, polls[0]), polls[1..])
  }

  /** The statuses that arrived. */
  function Arrived(polls: seq<Option<Arrival>>): seq<Arrival> {
    if polls == [] then []
    else (if polls[0].Some? then [polls[0].value] else []) + Arrived(polls[1..])
  }

  /** Up to and including the first terminal status that ends the tracking: a repeated one, or one
      whose post does not raise. */
  function UntilEnd(last: Option<Status>, arrivals: seq<Arrival>): seq<Status>
    decreases |arrivals|
  {
    if arrivals == [] then []
    else
      var a := arrivals[0];
      [a.status] + (if Terminal(a.status) && (last == Some(a.status) || !a.raises) then []
                    else UntilEnd(Some(a.status), arrivals[1..]))
  }

  /** Up to and including the first terminal status. */
  function UntilTerminal(arrivals: seq<Arrival>): seq<Status> {
    if arrivals == [] then []
    else [arrivals[0].status] + (if Terminal(arrivals[0].status) then [] else UntilTerminal(arrivals[1..]))
  }

  /** No update of a terminal status raises. */
  predicate Calm(arrivals: seq<Arrival>) {
    forall a | a in arrivals :: Terminal(a.status) ==> !a.raises
  }

  /** Without repeats of the preceding status. */
  function DeStutter(last: Option<Status>, statuses: seq<Status>): seq<Status>
    decreases |statuses|
  {
    if statuses == [] then []
    else (if last == Some(statuses[0]) then [] else [statuses[0]]) + DeStutter(Some(statuses[0]), statuses[1..])
  }

  function ToTarget(target: Target, statuses: seq<Status>): seq<Post> {
    seq(|statuses|, i requires 0 <= i < |statuses| => Post(target, statuses[i]))
  }

  lemma {:induction false} UntrackedIsSilent(polls: seq<Option<Arrival>>)
    ensures AllPosts(None, polls) == [] && AfterPolls(None, polls) == None
  {
    if polls != [] {
      UntrackedIsSilent(polls[1..]);
    }
  }

  lemma ToTargetAppends(target: Target, status: Status, rest: seq<Status>)
    ensures ToTarget(target, [status] + rest) == [Post(target, status)] + ToTarget(target, rest)
  {
  }

  /** For every stream of polls, the posts are exactly the arrived statuses without repeats, up to the
      terminal one that ends the tracking. */
  lemma {:induction false} PostsAreDeStuttered(v: Seen, polls: seq<Option<Arrival>>)
    requires v.target.Some?
    ensures AllPosts(Some(v), polls) == ToTarget(v.target.value, DeStutter(v.last, UntilEnd(v.last, Arrived(polls))))
    decreases |polls|
  {
    if polls != [] {
      if polls[0].None? {
        assert Arrived(polls) == Arrived(polls[1..]);
        PostsAreDeStuttered(v, polls[1..]);
      } else {
        PostsAreDeStutteredStep(v, polls);
      }
    }
  }

  lemma {:induction false} PostsAreDeStutteredStep(v: Seen, polls: seq<Option<Arrival>>)
    requires v.target.Some? && polls != [] && polls[0].Some?
    ensures AllPosts(Some(v), polls) == ToTarget(v.target.value, DeStutter(v.last, UntilEnd(v.last, Arrived(polls))))
    decreases |polls|, 0
  {
    var target, a, rest := v.target.value, polls[0].value, polls[1..];
    assert Arrived(polls)[0] == a && Arrived(polls)[1..] == Arrived(rest);
    var tail := if Ends(v, a) then [] else UntilEnd(Some(a.status), Arrived(rest));
    assert UntilEnd(v.last, Arrived(polls)) == [a.status] + tail;
    if Ends(v, a) {
      UntrackedIsSilent(rest);
    } else {
      PostsAreDeStuttered(v.(last := Some(a.status)), rest);
    }
    assert AllPosts(Polled(Some(v), polls[0]), rest) == ToTarget(target, DeStutter(Some(a.status), tail));
    assert ([a.status] + tail)[1..] == tail;
    ToTargetAppends(target, a.status, DeStutter(Some(a.status), tail));
  }

  /** One quiet poll ends the tracking exactly on these four statuses. */
  lemma EndsOnTerminal(v: Seen, status: Status)
    ensures AfterPolls(Some(v), [Some(Arrival(status, false))]) == None <==>
              status == Closed || status == Stopped || status == Errored || status == Finished
  {
    assert [Some(Arrival(status, false))][1..] == [];
  }

  /** De-stuttering keeps a status exactly when it differs from the one before it. */
  lemma {:induction false} DeStutterSnoc(last: Option<Status>, statuses: seq<Status>, status: Status)
    ensures DeStutter(last, []) == []
    ensures DeStutter(last, statuses + [status])
         == DeStutter(last, statuses)
            + (if Some(status) == (if statuses == [] then last else Some(statuses[|statuses| - 1])) then []
               else [status])
    decreases |statuses|
  {
    var all := statuses + [status];
    if statuses == [] {
      assert all[1..] == [];
    } else {
      assert all[1..] == statuses[1..] + [status];
      DeStutterSnoc(Some(statuses[0]), statuses[1..], status);
    }
  }

  /** The arrivals are those of the polls that said something, in order. */
  lemma {:induction false} ArrivedSnoc(polls: seq<Option<Arrival>>, polled: Option<Arrival>)
    ensures Arrived([]) == []
    ensures Arrived(polls + [polled]) == Arrived(polls) + (if polled.Some? then [polled.value] else [])
  {
    var all := polls + [polled];
    if polls == [] {
      assert all[1..] == [];
    } else {
      assert all[1..] == polls[1..] + [polled];
      ArrivedSnoc(polls[1..], polled);
    }
  }

  /** The cut is a prefix of the arrived statuses, up to and including the first terminal one, or all. */
  lemma {:induction false} UntilTerminalIs(arrivals: seq<Arrival>)
    ensures var r := UntilTerminal(arrivals);
            && |r| <= |arrivals|
            && (forall i | 0 <= i < |r| :: r[i] == arrivals[i].status)
            && (forall i | 0 <= i < |r| - 1 :: !Terminal(arrivals[i].status))
            && (|r| < |arrivals| ==> |r| > 0 && Terminal(arrivals[|r| - 1].status))
  {
    if arrivals != [] {
      UntilTerminalIs(arrivals[1..]);
    }
  }

  /** Where no update of a terminal status raises, the first terminal status ends the tracking. */
  lemma {:induction false} CalmEndsAtTerminal(last: Option<Status>, arrivals: seq<Arrival>)
    requires Calm(arrivals)
    ensures UntilEnd(last, arrivals) == UntilTerminal(arrivals)
    decreases |arrivals|
  {
    if arrivals != [] {
      assert arrivals[0] in arrivals;
      CalmEndsAtTerminal(Some(arrivals[0].status), arrivals[1..]);
    }
  }

  /** The status before arrival `i`. */
  function Before(last: Option<Status>, arrivals: seq<Arrival>, i: nat): Option<Status>
    requires i < |arrivals|
  {
    if i == 0 then last else Some(arrivals[i - 1].status)
  }

  /** Arrival `i` ends the tracking if nothing did before. */
  predicate EndsAt(v: Seen, arrivals: seq<Arrival>, i: nat) {
    i < |arrivals| && Ends(v.(last := Before(v.last, arrivals, i)), arrivals[i])
  }

  lemma EndsLater(v: Seen, arrivals: seq<Arrival>, i: nat)
    requires arrivals != []
    ensures EndsAt(v, arrivals, 0) == Ends(v, arrivals[0])
    ensures EndsAt(v, arrivals, i + 1) == EndsAt(v.(last := Some(arrivals[0].status)), arrivals[1..], i)
  {
  }

  /** Some arrival ends the tracking exactly if the first does, or some later one. */
  lemma EndsSomewhere(v: Seen, arrivals: seq<Arrival>)
    requires arrivals != []
    ensures (exists i: nat :: EndsAt(v, arrivals, i)) <==>
              || Ends(v, arrivals[0])
              || exists i: nat :: EndsAt(v.(last := Some(arrivals[0].status)), arrivals[1..], i)
  {
    EndsLater(v, arrivals, 0);
    if i: nat :| EndsAt(v, arrivals, i) && i > 0 {
      EndsLater(v, arrivals, i - 1);
    }
    if i: nat :| EndsAt(v.(last := Some(arrivals[0].status)), arrivals[1..], i) {
      EndsLater(v, arrivals, i);
    }
  }

  /** The conversation ends untracked exactly when a terminal status has arrived that repeats the one
      before it, or whose post does not raise. */
  lemma {:induction false} UntrackedIffEnded(v: Seen, polls: seq<Option<Arrival>>)
    ensures AfterPolls(Some(v), polls) == None <==> exists i: nat :: EndsAt(v, Arrived(polls), i)
    decreases |polls|
  {
    if polls != [] {
      var rest := polls[1..];
      if polls[0].None? {
        assert Arrived(polls) == Arrived(rest);
        UntrackedIffEnded(v, rest);
      } else {
        var a := polls[0].value;
        assert Arrived(polls)[0] == a && Arrived(polls)[1..] == Arrived(rest);
        EndsSomewhere(v, Arrived(polls));
        if Ends(v, a) {
          UntrackedIsSilent(rest);
        } else {
          UntrackedIffEnded(v.(last := Some(a.status)), rest);
        }
      }
    }
  }

  /** The end of the tracking cuts the arrived statuses just after the first arrival that ends it. */
  lemma {:induction false} UntilEndIs(v: Seen, arrivals: seq<Arrival>)
    requires v.target.Some?
    ensures var r := UntilEnd(v.last, arrivals);
            && |r| <= |arrivals|
            && (forall i | 0 <= i < |r| :: r[i] == arrivals[i].status)
            && (forall i: nat | i < |r| - 1 :: !EndsAt(v, arrivals, i))
            && (|r| < |arrivals| ==> |r| > 0 && EndsAt(v, arrivals, |r| - 1))
    decreases |arrivals|
  {
    if arrivals != [] {
      var v', rest := v.(last := Some(arrivals[0].status)), arrivals[1..];
      EndsLater(v, arrivals, 0);
      if Ends(v, arrivals[0]) {
        assert UntilEnd(v.last, arrivals) == [arrivals[0].status];
      } else {
        var tail := UntilEnd(v'.last, rest);
        assert UntilEnd(v.last, arrivals) == [arrivals[0].status] + tail;
        UntilEndIs(v', rest);
        if |tail| > 0 {
          EndsLater(v, arrivals, |tail| - 1);
        }
        forall i: nat | i < |tail| ensures !EndsAt(v, arrivals, i) {
          if i > 0 {
            EndsLater(v, arrivals, i - 1);
          }
        }
      }
    }
  }

  /** A de-stuttered stream never says the same thing twice in a row. */
  lemma {:induction false} DeStutterHasNoRepeats(last: Option<Status>, statuses: seq<Status>)
    ensures var r := DeStutter(last, statuses);
            && (r != [] ==> Some(r[0]) != last)
            && forall i | 0 < i < |r| :: r[i] != r[i - 1]
    decreases |statuses|
  {
    if statuses != [] {
      DeStutterHasNoRepeats(Some(statuses[0]), statuses[1..]);
    }
  }

  // ------------------------------------------------------------------ reloading from the database

  function FromRow(k: Key, r: Row): Tracked {
    var parsed := if k.source.Github? && k.resourceId != "" then ResourceIds.Parse(k.resourceId) else None;
    Tracked(k.source, k.resourceId, r.projectId, r.noteableType, r.noteableIid, r.noteId,
            if parsed.Some? then Some(parsed.value.owner) else None,
            if parsed.Some? then Some(parsed.value.repo) else None,
            if parsed.Some? then parsed.value.number else None,
            r.slackChannel, r.slackTs, r.lastStatus)
  }

  predicate LoadableRow(r: Row) {
    (r.noteId.Some? || r.slackTs.Some?) && !(r.lastStatus.Some? && Terminal(r.lastStatus.value))
  }

  predicate LoadsFor(t: Tables, k: Key, c: string) {
    k in t.conversations && t.conversations[k].conversation == c && LoadableRow(t.conversations[k])
  }

  /** The reload reads owner, repository and number back from the printed resource id. */
  lemma ReloadedGithub(k: Key, r: Row, owner: string, repo: string, number: int)
    requires k.source.Github? && k.resourceId == ResourceIds.Print(owner, repo, number)
    requires owner != "" && '/' !in owner
    ensures var t := FromRow(k, r);
            t.githubOwner == Some(owner) && t.githubRepo == Some(repo) && t.githubNumber == Some(number)
  {
    ResourceIds.ParsePrinted(owner, repo, number);
    assert ResourceIds.Print(owner, repo, number) != "";
  }

  /** A restart considers the rows with a note or a Slack timestamp whose last status is none of the four
      that end tracking. */
  lemma LoadsIff(t: Tables, k: Key, c: string)
    ensures LoadsFor(t, k, c) <==>
      && k in t.conversations && t.conversations[k].conversation == c
      && (t.conversations[k].noteId != None || t.conversations[k].slackTs != None)
      && t.conversations[k].lastStatus !in {Some(Closed), Some(Stopped), Some(Errored), Some(Finished)}
  {
  }

  function LoadableConversations(t: Tables): set<string> {
    set k | k in t.conversations && LoadableRow(t.conversations[k]) :: t.conversations[k].conversation
  }

  /** What a restart may find for a conversation. */
  ghost function Reloaded(t: Tables, c: string): (r: Option<Tracked>)
    ensures r.Some? <==> exists k :: LoadsFor(t, k, c)
  {
    if k :| LoadsFor(t, k, c) then Some(FromRow(k, t.conversations[k])) else None
  }

  predicate OneRow(t: Tables, c: string) {
    forall k1, k2 | k1 in t.conversations && k2 in t.conversations ::
      t.conversations[k1].conversation == c == t.conversations[k2].conversation ==> k1 == k2
  }

  // ------------------------------------------------------------------ runs with restarts

  function Get<V>(m: map<string, V>, c: string): Option<V> {
    if c in m then Some(m[c]) else None
  }

  datatype State = State(tracked: map<string, Tracked>, tables: Tables)

  /** One poll: the fetched statuses, and the conversations whose posts raise. */
  datatype Round = Round(statuses: map<string, Status>, raising: set<string>) {
    function Of(c: string): Option<Arrival> {
      if c in statuses then Some(Arrival(statuses[c], c in raising)) else None
    }
  }

  datatype Event = Poll(round: Round) | Restart

  function PolledEntry(t: Tracked, polled: Option<Arrival>): Option<Tracked> {
    if polled.None? then Some(t)
    else if Ends(See(Some(t)).value, polled.value) then None
    else Some(t.(lastStatus := Some(polled.value.status)))
  }

  function PollTracked(tracked: map<string, Tracked>, round: Round): map<string, Tracked> {
    map c | c in tracked && PolledEntry(tracked[c], round.Of(c)).Some? :: PolledEntry(tracked[c], round.Of(c)).value
  }

  predicate Changed(t: Tracked, polled: Option<Arrival>) {
    polled.Some? && t.lastStatus != Some(polled.value.status)
  }

  function PollRow(r: Row, tracked: map<string, Tracked>, round: Round): Row {
    var c := r.conversation;
    if c in tracked && Changed(tracked[c], round.Of(c)) then r.(lastStatus := Some(round.statuses[c])) else r
  }

  /** Each changed status is also written to the rows of its conversation. */
  function PollTables(t: Tables, tracked: map<string, Tracked>, round: Round): Tables {
    t.(conversations := map k | k in t.conversations :: PollRow(t.conversations[k], tracked, round))
  }

  ghost function Happens(s: State, e: Event): State {
    match e
    case Poll(round) => State(PollTracked(s.tracked, round), PollTables(s.tables, s.tracked, round))
    case Restart =>
      s.(tracked := map c | c in LoadableConversations(s.tables) && Reloaded(s.tables, c).Some? ::
        Reloaded(s.tables, c).value)
  }

  /** The updates posted, or tried, for one conversation over a whole run. */
  ghost function Posted(s: State, events: seq<Event>, c: string): seq<Post>
    decreases |events|
  {
    if events == [] then []
    else
      (if events[0].Poll? then PostsOf(See(Get(s.tracked, c)), events[0].round.Of(c)) else [])
      + Posted(Happens(s, events[0]), events[1..], c)
  }

  function WithoutRestarts(events: seq<Event>): seq<Event> {
    if events == [] then []
    else (if events[0].Poll? then [events[0]] else []) + WithoutRestarts(events[1..])
  }

  /** What the polls of a run say about one conversation. */
  function PolledFor(events: seq<Event>, c: string): seq<Option<Arrival>> {
    if events == [] then []
    else (if events[0].Poll? then [events[0].round.Of(c)] else []) + PolledFor(events[1..], c)
  }

  /** The cache agrees with what a restart would load. */
  ghost predicate Agrees(s: State, c: string) {
    OneRow(s.tables, c) && See(Get(s.tracked, c)) == See(Reloaded(s.tables, c))
  }

  lemma ReloadedIs(t: Tables, k: Key, c: string)
    requires OneRow(t, c) && LoadsFor(t, k, c)
    ensures Reloaded(t, c) == Some(FromRow(k, t.conversations[k]))
  {
  }

  lemma PolledSeen(tracked: map<string, Tracked>, round: Round, c: string)
    ensures See(Get(PollTracked(tracked, round), c)) == Polled(See(Get(tracked, c)), round.Of(c))
  {
    if c in tracked && c in round.statuses {
      assert TargetOf(tracked[c].(lastStatus := Some(round.statuses[c]))) == TargetOf(tracked[c]);
    }
  }

  lemma RowSeen(k: Key, r: Row, status: Status)
    ensures See(Some(FromRow(k, r.(lastStatus := Some(status)))))
         == Some(See(Some(FromRow(k, r))).value.(last := Some(status)))
  {
    var before, after := FromRow(k, r), FromRow(k, r.(lastStatus := Some(status)));
    assert after == before.(lastStatus := Some(status));
    assert TargetOf(after) == TargetOf(before);
  }

  /** What a restart would load after a poll: the last status is in the database before the post,
      so an exception in the post does not matter. */
  lemma ReloadedAfterPoll(s: State, round: Round, c: string)
    requires Agrees(s, c)
    ensures OneRow(PollTables(s.tables, s.tracked, round), c)
    ensures var v, polled := See(Get(s.tracked, c)), round.Of(c);
            See(Reloaded(PollTables(s.tables, s.tracked, round), c)) ==
              if v.Some? && polled.Some? && Terminal(polled.value.status) then None
              else if v.Some? && polled.Some? then Some(v.value.(last := Some(polled.value.status)))
              else v
  {
    var t, t' := s.tables, PollTables(s.tables, s.tracked, round);
    assert OneRow(t', c);
    if k :| LoadsFor(t, k, c) {
      ReloadedIs(t, k, c);
      var r := t.conversations[k];
      if c in round.statuses {
        RowSeen(k, r, round.statuses[c]);
      }
      if LoadsFor(t', k, c) {
        ReloadedIs(t', k, c);
      } else {
        assert Reloaded(t', c) == None;
      }
    } else {
      assert c !in s.tracked;
      forall k ensures !LoadsFor(t', k, c) {
        assert !LoadsFor(t, k, c);
      }
    }
  }

  /** The post of a terminal status raises: the cache keeps the conversation, the database does not. */
  predicate Lingers(v: Option<Seen>, polled: Option<Arrival>) {
    v.Some? && polled.Some? && Terminal(polled.value.status) && Posts(v.value, polled.value) && polled.value.raises
  }

  /** A poll keeps cache and database in agreement exactly when no post of a terminal status raises. */
  lemma PollKeepsAgreementIff(s: State, round: Round, c: string)
    requires Agrees(s, c)
    ensures Agrees(Happens(s, Poll(round)), c) <==> !Lingers(See(Get(s.tracked, c)), round.Of(c))
  {
    PolledSeen(s.tracked, round, c);
    ReloadedAfterPoll(s, round, c);
  }

  lemma RestartKeepsAgreement(s: State, c: string)
    requires Agrees(s, c)
    ensures Agrees(Happens(s, Restart), c)
    ensures See(Get(Happens(s, Restart).tracked, c)) == See(Get(s.tracked, c))
  {
    RestartLoads(s, c);
  }

  lemma RestartLoads(s: State, c: string)
    ensures Get(Happens(s, Restart).tracked, c) == Reloaded(s.tables, c)
  {
    if k :| LoadsFor(s.tables, k, c) {
      assert c in LoadableConversations(s.tables);
    }
  }

  /** No update of a terminal status raises along the run. */
  predicate CalmFor(events: seq<Event>, c: string) {
    Calm(Arrived(PolledFor(events, c)))
  }

  lemma CalmStep(events: seq<Event>, c: string)
    requires events != [] && CalmFor(events, c)
    ensures CalmFor(events[1..], c)
    ensures events[0].Poll? ==> forall v :: !Lingers(v, events[0].round.Of(c))
  {
    var head := if events[0].Poll? then [events[0].round.Of(c)] else [];
    var rest := PolledFor(events[1..], c);
    assert PolledFor(events, c) == head + rest;
    if events[0].Poll? {
      assert (head + rest)[1..] == rest;
      if events[0].round.Of(c).Some? {
        assert Arrived(head + rest)[0] in Arrived(head + rest);
      }
      forall a | a in Arrived(rest) ensures a in Arrived(head + rest) {
      }
    } else {
      assert head + rest == rest;
    }
  }

  /** Restarts are transparent: wherever the cache and the database agree on a conversation to begin
      with, any number of restarts anywhere in a calm run changes none of its updates. */
  lemma {:induction false} RestartsAreTransparent(s: State, plain: State, events: seq<Event>, c: string)
    requires Agrees(s, c) && See(Get(s.tracked, c)) == See(Get(plain.tracked, c)) && CalmFor(events, c)
    ensures Posted(s, events, c) == Posted(plain, WithoutRestarts(events), c)
    decreases |events|
  {
    if events != [] {
      CalmStep(events, c);
      match events[0]
      case Poll(round) =>
        PollKeepsAgreementIff(s, round, c);
        PolledSeen(s.tracked, round, c);
        PolledSeen(plain.tracked, round, c);
        RestartsAreTransparent(Happens(s, events[0]), Happens(plain, events[0]), events[1..], c);
        assert WithoutRestarts(events)[1..] == WithoutRestarts(events[1..]);
      case Restart =>
        RestartKeepsAgreement(s, c);
        RestartsAreTransparent(Happens(s, Restart), plain, events[1..], c);
        assert WithoutRestarts(events) == WithoutRestarts(events[1..]);
    }
  }

  /** With restarts anywhere in a calm run, the updates are those of the bare stream of polls. */
  lemma {:induction false} PostedIsAllPosts(s: State, events: seq<Event>, c: string)
    requires Agrees(s, c) && CalmFor(events, c)
    ensures Posted(s, events, c) == AllPosts(See(Get(s.tracked, c)), PolledFor(events, c))
    decreases |events|
  {
    if events != [] {
      CalmStep(events, c);
      match events[0]
      case Poll(round) =>
        PollKeepsAgreementIff(s, round, c);
        PolledSeen(s.tracked, round, c);
        PostedIsAllPosts(Happens(s, events[0]), events[1..], c);
        assert PolledFor(events, c)[1..] == PolledFor(events[1..], c);
      case Restart =>
        RestartKeepsAgreement(s, c);
        PostedIsAllPosts(Happens(s, Restart), events[1..], c);
        assert PolledFor(events, c) == PolledFor(events[1..], c);
    }
  }

  // ------------------------------------------------------------------ restarts that show

  /** A poll that says one thing about one conversation, and posts without trouble. */
  function Says(c: string, status: Status): Event {
    Poll(Round(map[c := status], {}))
  }

  lemma PostedOne(s: State, e: Event, rest: seq<Event>, c: string)
    ensures Posted(s, [e] + rest, c)
         == (if e.Poll? then PostsOf(See(Get(s.tracked, c)), e.round.Of(c)) else []) + Posted(Happens(s, e), rest, c)
  {
    assert ([e] + rest)[1..] == rest;
  }

  /** The updates of a poll right away, and of one after a restart. */
  lemma PollOrRestart(s: State, c: string, status: Status)
    ensures Posted(s, [Says(c, status)], c) == PostsOf(See(Get(s.tracked, c)), Some(Arrival(status, false)))
    ensures Posted(s, [Restart, Says(c, status)], c)
         == PostsOf(See(Reloaded(s.tables, c)), Some(Arrival(status, false)))
  {
    var poll := Says(c, status);
    RestartLoads(s, c);
    PostedOne(s, poll, [], c);
    PostedOne(s, Restart, [poll], c);
    PostedOne(Happens(s, Restart), poll, [], c);
    assert [poll] + [] == [poll] && [Restart] + [poll] == [Restart, poll];
  }

  /** A tracked conversation with a target that a restart would load differently: some status makes
      the next poll post another update with the restart than without. */
  lemma DisagreementShows(s: State, c: string) returns (status: Status)
    requires c in s.tracked && TargetOf(s.tracked[c]).Some?
    requires See(Get(s.tracked, c)) != See(Reloaded(s.tables, c))
    ensures Posted(s, [Restart, Says(c, status)], c) != Posted(s, [Says(c, status)], c)
  {
    var cached, reloaded := See(Get(s.tracked, c)).value, See(Reloaded(s.tables, c));
    if reloaded.None? || reloaded.value.target.None? || reloaded.value.last == cached.last {
      status := if cached.last == Some(Running) then Finished else Running;
    } else {
      status := if reloaded.value.last.Some? then reloaded.value.last.value else cached.last.value;
    }
    PollOrRestart(s, c, status);
  }

  /** Where the post of a terminal status raises, a restart right after shows: the cache still tracks
      the conversation, the database does not. */
  lemma RaisingPostShows(s: State, c: string, round: Round) returns (status: Status)
    requires Agrees(s, c) && Lingers(See(Get(s.tracked, c)), round.Of(c))
    ensures Posted(s, [Poll(round), Restart, Says(c, status)], c) != Posted(s, [Poll(round), Says(c, status)], c)
  {
    var s' := Happens(s, Poll(round));
    PolledSeen(s.tracked, round, c);
    ReloadedAfterPoll(s, round, c);
    status := DisagreementShows(s', c);
    PostedOne(s, Poll(round), [Restart, Says(c, status)], c);
    PostedOne(s, Poll(round), [Says(c, status)], c);
    assert [Poll(round)] + [Restart, Says(c, status)] == [Poll(round), Restart, Says(c, status)];
    assert [Poll(round)] + [Says(c, status)] == [Poll(round), Says(c, status)];
    var first := PostsOf(See(Get(s.tracked, c)), round.Of(c));
    var restarted, plain := Posted(s', [Restart, Says(c, status)], c), Posted(s', [Says(c, status)], c);
    assert (first + restarted)[|first|..] == restarted && (first + plain)[|first|..] == plain;
  }

  // ------------------------------------------------------------------ tracking a conversation

  /** What a handler tracks: where it posted the first status of a conversation. */
  datatype Place =
    | OnGithub(owner: string, repo: string, number: int, comment: int)
    | OnGitlab(project: int, noteableType: string, iid: int, note: int)
    | OnJira(issue: string, comment: int)
    | OnSlack(channel: string, ts: string)

  function PlaceTracked(place: Place): Tracked {
    match place
    case OnGithub(owner, repo, number, comment) =>
      Tracked(Github, ResourceIds.Print(owner, repo, number), None, None, None, Some(comment),
              Some(owner), Some(repo), Some(number), None, None, None)
    case OnGitlab(project, noteableType, iid, note) =>
      Tracked(Gitlab, "", Some(project), Some(noteableType), Some(iid), Some(note), None, None, None, None, None, None)
    case OnJira(issue, comment) =>
      Tracked(Jira, issue, None, None, None, Some(comment), None, None, None, None, None, None)
    case OnSlack(channel, ts) =>
      Tracked(Slack, channel + ":" + ts, None, None, None, None, None, None, None, Some(channel), Some(ts), None)
  }

  /** The handler's own comment or message, if all that names it is there. */
  function PlaceTarget(place: Place): Option<Target> {
    match place
    case OnGithub(owner, repo, _, comment) =>
      if owner != "" && comment != 0 then Some(GithubComment(owner, Some(repo), comment)) else None
    case OnGitlab(project, noteableType, iid, note) =>
      if project != 0 && note != 0 then Some(GitlabNote(project, Some(noteableType), Some(iid), note)) else None
    case OnJira(issue, comment) => if issue != "" && comment != 0 then Some(JiraComment(issue, comment)) else None
    case OnSlack(channel, ts) => if channel != "" && ts != "" then Some(SlackMessage(channel, ts)) else None
  }

  lemma TrackedTarget(place: Place)
    ensures TargetOf(PlaceTracked(place)) == PlaceTarget(place)
  {
  }

  function PlaceStored(t: Tables, c: string, place: Place): Tables {
    match place
    case OnGithub(_, _, number, comment) => t.StoreNoteMetadata(c, 0, "github", number, comment)
    case OnGitlab(project, noteableType, iid, note) => t.StoreNoteMetadata(c, project, noteableType, iid, note)
    case OnJira(_, comment) => t.StoreJiraComment(c, comment)
    case OnSlack(channel, ts) => t.StoreSlackMetadata(c, channel, ts)
  }

  function Cached(s: State, c: string, place: Place): State {
    s.(tracked := s.tracked[c := PlaceTracked(place)])
  }

  function Stored(s: State, c: string, place: Place): State {
    s.(tables := PlaceStored(s.tables, c, place))
  }

  /** Tracking caches at once and schedules the write of the metadata. */
  function TrackAt(s: State, c: string, place: Place): State {
    Stored(Cached(s, c, place), c, place)
  }

  /** The handler tracks the conversation of the resource it handles. */
  predicate PlaceOf(k: Key, place: Place) {
    match place
    case OnGithub(owner, repo, number, comment) =>
      k.source.Github? && k.resourceId == ResourceIds.Print(owner, repo, number) && comment != 0
    case OnGitlab(_, _, _, _) => k.source.Gitlab?
    case OnJira(issue, _) => k.source.Jira? && k.resourceId == issue
    case OnSlack(_, _) => k.source.Slack?
  }

  lemma StoredRow(t: Tables, k: Key, c: string, place: Place)
    requires k in t.conversations && t.conversations[k].conversation == c
    ensures var r, r' := t.conversations[k], PlaceStored(t, c, place).conversations[k];
            && r'.lastStatus == r.lastStatus
            && (place.OnGithub? ==> r'.noteId == Some(place.comment))
            && (place.OnGitlab? ==> r' == r.(projectId := Some(place.project), noteableType := Some(place.noteableType),
                                             noteableIid := Some(place.iid), noteId := Some(place.note)))
            && (place.OnJira? ==> r'.noteId == Some(place.comment))
            && (place.OnSlack? ==> r'.slackChannel == Some(place.channel) && r'.slackTs == Some(place.ts))
  {
  }

  lemma StoredLoads(s: State, k: Key, c: string, place: Place)
    requires OneRow(s.tables, c) && k in s.tables.conversations && s.tables.conversations[k].conversation == c
    ensures var t', r := PlaceStored(s.tables, c, place), s.tables.conversations[k];
            && OneRow(t', c)
            && (LoadsFor(t', k, c) <==> !(r.lastStatus.Some? && Terminal(r.lastStatus.value)))
            && (!LoadsFor(t', k, c) ==> Reloaded(t', c) == None)
  {
    StoredRow(s.tables, k, c, place);
    var t' := PlaceStored(s.tables, c, place);
    assert OneRow(t', c);
    if !LoadsFor(t', k, c) {
      assert Reloaded(t', c) == None;
    }
  }

  /** After tracking, cache and database agree exactly when the row carries no status from an
      earlier conversation and, on GitHub, the owner survives the resource id. */
  lemma TrackedAgreesIff(s: State, k: Key, c: string, place: Place)
    requires OneRow(s.tables, c) && k in s.tables.conversations && s.tables.conversations[k].conversation == c
    requires PlaceOf(k, place)
    ensures Agrees(TrackAt(s, c, place), c)
       <==> s.tables.conversations[k].lastStatus == None && (place.OnGithub? ==> '/' !in place.owner)
  {
    var s' := TrackAt(s, c, place);
    StoredLoads(s, k, c, place);
    StoredRow(s.tables, k, c, place);
    ReloadedTargetIff(k, s'.tables.conversations[k], place);
    if LoadsFor(s'.tables, k, c) {
      ReloadedIs(s'.tables, k, c);
    }
  }

  /** End to end: a conversation tracked on a fresh row gets, through any polls and restarts,
      exactly its arrived statuses without repeats up to the first terminal one, all where its
      handler posted the first. */
  lemma UpdatesEndToEnd(s: State, k: Key, c: string, place: Place, events: seq<Event>)
    requires OneRow(s.tables, c) && k in s.tables.conversations && s.tables.conversations[k].conversation == c
    requires PlaceOf(k, place) && PlaceTarget(place).Some? && CalmFor(events, c)
    requires s.tables.conversations[k].lastStatus == None && (place.OnGithub? ==> '/' !in place.owner)
    ensures Posted(TrackAt(s, c, place), events, c)
         == ToTarget(PlaceTarget(place).value, DeStutter(None, UntilTerminal(Arrived(PolledFor(events, c)))))
  {
    var s' := TrackAt(s, c, place);
    TrackedTarget(place);
    TrackedAgreesIff(s, k, c, place);
    PostedIsAllPosts(s', events, c);
    PostsAreDeStuttered(See(Get(s'.tracked, c)).value, PolledFor(events, c));
    CalmEndsAtTerminal(None, Arrived(PolledFor(events, c)));
  }

  /** Restarts are transparent to a tracked conversation in all calm runs exactly when its row carried
      no status of an earlier conversation and, on GitHub, the owner survives the resource id. */
  lemma TransparentIff(s: State, k: Key, c: string, place: Place)
    requires OneRow(s.tables, c) && k in s.tables.conversations && s.tables.conversations[k].conversation == c
    requires PlaceOf(k, place) && PlaceTarget(place).Some?
    ensures (forall events | CalmFor(events, c) ::
               Posted(TrackAt(s, c, place), events, c) == Posted(TrackAt(s, c, place), WithoutRestarts(events), c))
       <==> s.tables.conversations[k].lastStatus == None && (place.OnGithub? ==> '/' !in place.owner)
  {
    var s' := TrackAt(s, c, place);
    if s.tables.conversations[k].lastStatus == None && (place.OnGithub? ==> '/' !in place.owner) {
      TrackedAgreesIff(s, k, c, place);
      forall events | CalmFor(events, c)
        ensures Posted(s', events, c) == Posted(s', WithoutRestarts(events), c)
      {
        RestartsAreTransparent(s', s', events, c);
      }
    } else {
      var status := RestartShows(s, k, c, place);
      var events := [Restart, Says(c, status)];
      SaysIsCalm(c, status);
      assert Posted(s', events, c) != Posted(s', WithoutRestarts(events), c);
    }
  }

  lemma SaysIsCalm(c: string, status: Status)
    ensures CalmFor([Restart, Says(c, status)], c)
    ensures WithoutRestarts([Restart, Says(c, status)]) == [Says(c, status)]
  {
    var poll, arrival := Says(c, status), Arrival(status, false);
    assert [Restart, poll][1..] == [poll] && [poll][1..] == [];
    assert WithoutRestarts([poll]) == [poll];
    assert PolledFor([poll], c) == [Some(arrival)];
    assert PolledFor([Restart, poll], c) == [Some(arrival)];
    assert Arrived([Some(arrival)]) == [arrival];
  }

  /** Otherwise some status makes a poll right after a restart post another update, or none. */
  lemma RestartShows(s: State, k: Key, c: string, place: Place) returns (status: Status)
    requires OneRow(s.tables, c) && k in s.tables.conversations && s.tables.conversations[k].conversation == c
    requires PlaceOf(k, place) && PlaceTarget(place).Some?
    requires s.tables.conversations[k].lastStatus != None || (place.OnGithub? && '/' in place.owner)
    ensures Posted(TrackAt(s, c, place), [Restart, Says(c, status)], c)
         != Posted(TrackAt(s, c, place), [Says(c, status)], c)
  {
    StoredLoads(s, k, c, place);
    TrackedTarget(place);
    TrackedAgreesIff(s, k, c, place);
    status := DisagreementShows(TrackAt(s, c, place), c);
  }

  /** A key's first row, marked and then resolved. */
  function Inserted(t: Tables, k: Key, c: string, marked: real, resolved: real): Tables {
    t.StoreConversation(k, PENDING, marked).StoreConversation(k, c, resolved)
  }

  lemma InsertedIsFresh(t: Tables, k: Key, c: string, marked: real, resolved: real)
    requires k !in t.conversations
    requires forall j | j in t.conversations :: t.conversations[j].conversation != c
    ensures var t' := Inserted(t, k, c, marked, resolved);
            && k in t'.conversations && t'.conversations[k].conversation == c
            && t'.conversations[k].lastStatus == None && OneRow(t', c)
  {
    StoredRowIs(t, k, PENDING, marked, k);
    StoredRowIs(t.StoreConversation(k, PENDING, marked), k, c, resolved, k);
    var t' := Inserted(t, k, c, marked, resolved);
    forall j | j in t'.conversations && t'.conversations[j].conversation == c ensures j == k {
      StoredRowIs(t, k, PENDING, marked, j);
      StoredRowIs(t.StoreConversation(k, PENDING, marked), k, c, resolved, j);
    }
  }

  /** From the insertion on: a key without a row is marked, resolved and tracked.  Through any polls and
      restarts its conversation gets exactly its arrived statuses without repeats up to the first
      terminal one, where its handler posted the first ... */
  lemma InsertedUpdatesEndToEnd(s: State, k: Key, c: string, marked: real, resolved: real, place: Place,
                                events: seq<Event>)
    requires k !in s.tables.conversations
    requires forall j | j in s.tables.conversations :: s.tables.conversations[j].conversation != c
    requires PlaceOf(k, place) && PlaceTarget(place).Some? && CalmFor(events, c)
    requires place.OnGithub? ==> '/' !in place.owner
    ensures var tracked := TrackAt(State(s.tracked, Inserted(s.tables, k, c, marked, resolved)), c, place);
            Posted(tracked, events, c) ==
              ToTarget(PlaceTarget(place).value, DeStutter(None, UntilTerminal(Arrived(PolledFor(events, c)))))
  {
    InsertedIsFresh(s.tables, k, c, marked, resolved);
    UpdatesEndToEnd(State(s.tracked, Inserted(s.tables, k, c, marked, resolved)), k, c, place, events);
  }

  /** ... and the restarts among them change nothing. */
  lemma InsertedRestartsAreTransparent(s: State, k: Key, c: string, marked: real, resolved: real, place: Place,
                                       events: seq<Event>)
    requires k !in s.tables.conversations
    requires forall j | j in s.tables.conversations :: s.tables.conversations[j].conversation != c
    requires PlaceOf(k, place) && PlaceTarget(place).Some? && CalmFor(events, c)
    requires place.OnGithub? ==> '/' !in place.owner
    ensures var tracked := TrackAt(State(s.tracked, Inserted(s.tables, k, c, marked, resolved)), c, place);
            Posted(tracked, events, c) == Posted(tracked, WithoutRestarts(events), c)
  {
    InsertedIsFresh(s.tables, k, c, marked, resolved);
    TransparentIff(State(s.tracked, Inserted(s.tables, k, c, marked, resolved)), k, c, place);
  }

  /** The upsert keeps the last status: a new conversation on the row of an earlier one that was
      polled is such a conversation. */
  lemma ReusedRowShows(s: State, k: Key, c: string, now: real, place: Place) returns (status: Status)
    requires k in s.tables.conversations && s.tables.conversations[k].lastStatus.Some?
    requires forall j | j in s.tables.conversations && j != k :: s.tables.conversations[j].conversation != c
    requires PlaceOf(k, place) && PlaceTarget(place).Some?
    ensures var reused := TrackAt(s.(tables := s.tables.StoreConversation(k, c, now)), c, place);
            Posted(reused, [Restart, Says(c, status)], c) != Posted(reused, [Says(c, status)], c)
  {
    status := RestartShows(s.(tables := s.tables.StoreConversation(k, c, now)), k, c, place);
  }

  function AfterRounds(s: State, rounds: seq<Round>): State {
    if rounds == [] then s
    else
      var s' := AfterRounds(s, rounds[..|rounds| - 1]);
      var round := rounds[|rounds| - 1];
      State(PollTracked(s'.tracked, round), PollTables(s'.tables, s'.tracked, round))
  }

  function PlaceRow(r: Row, c: string, place: Place): Row {
    if r.conversation != c then r
    else
      match place
      case OnGithub(_, _, number, comment) =>
        r.(projectId := Some(0), noteableType := Some("github"), noteableIid := Some(number), noteId := Some(comment))
      case OnGitlab(project, noteable, iid, note) =>
        r.(projectId := Some(project), noteableType := Some(noteable), noteableIid := Some(iid), noteId := Some(note))
      case OnJira(_, comment) => r.(noteId := Some(comment))
      case OnSlack(channel, ts) => r.(slackChannel := Some(channel), slackTs := Some(ts))
  }

  lemma StoredRows(t: Tables, c: string, place: Place)
    ensures PlaceStored(t, c, place)
         == t.(conversations := map k | k in t.conversations :: PlaceRow(t.conversations[k], c, place))
  {
    assert PlaceStored(t, c, place).conversations
        == map k | k in t.conversations :: PlaceRow(t.conversations[k], c, place);
  }

  lemma StoringCommutes(t: Tables, c: string, place: Place, tracked: map<string, Tracked>, round: Round)
    ensures PollTables(PlaceStored(t, c, place), tracked, round) == PlaceStored(PollTables(t, tracked, round), c, place)
  {
    StoredRows(t, c, place);
    StoredRows(PollTables(t, tracked, round), c, place);
    forall r: Row
      ensures PollRow(PlaceRow(r, c, place), tracked, round) == PlaceRow(PollRow(r, tracked, round), c, place)
    {
    }
    assert PollTables(PlaceStored(t, c, place), tracked, round).conversations
        == PlaceStored(PollTables(t, tracked, round), c, place).conversations;
  }

  /** The scheduled write may come late: however many polls go before it, cache and database end up
      as if it had been done at once. */
  lemma {:induction false} MetadataMayComeLate(s: State, c: string, place: Place, rounds: seq<Round>)
    ensures Stored(AfterRounds(Cached(s, c, place), rounds), c, place) == AfterRounds(TrackAt(s, c, place), rounds)
  {
    if rounds != [] {
      var front := rounds[..|rounds| - 1];
      MetadataMayComeLate(s, c, place, front);
      var s' := AfterRounds(Cached(s, c, place), front);
      StoringCommutes(s'.tables, c, place, s'.tracked, rounds[|rounds| - 1]);
    }
  }

  lemma ReloadedTargetIff(k: Key, r: Row, place: Place)
    requires PlaceOf(k, place)
    requires place.OnGithub? ==> r.noteId == Some(place.comment)
    requires place.OnGitlab? ==> r.projectId == Some(place.project) && r.noteableType == Some(place.noteableType)
                                 && r.noteableIid == Some(place.iid) && r.noteId == Some(place.note)
    requires place.OnJira? ==> r.noteId == Some(place.comment)
    requires place.OnSlack? ==> r.slackChannel == Some(place.channel) && r.slackTs == Some(place.ts)
    ensures TargetOf(FromRow(k, r)) == TargetOf(PlaceTracked(place)) <==> (place.OnGithub? ==> '/' !in place.owner)
  {
    if place.OnGithub? {
      ResourceIds.ParsePrinted(place.owner, place.repo, place.number);
      assert ResourceIds.Print(place.owner, place.repo, place.number) != "";
    }
  }

  // ------------------------------------------------------------------ the monitor itself

  function Log(posts: map<string, seq<Post>>, c: string): seq<Post> {
    if c in posts then posts[c] else []
  }

  function LogOne(posts: map<string, seq<Post>>, c: string, post: Post): map<string, seq<Post>> {
    posts[c := Log(posts, c) + [post]]
  }

  class StatusMonitor {
    var tracked: map<string, Tracked>
    var posts: map<string, seq<Post>>   // the updates posted so far, by conversation
    const db: Database

    constructor (db: Database)
      ensures this.db == db && tracked == map[] && posts == map[]
    {
      this.db := db;
      tracked, posts := map[], map[];
    }

    method Track(c: string, place: Place)
      modifies this`tracked
      ensures State(tracked, db.View()) == Cached(State(old(tracked), old(db.View())), c, place)
    {
      match place
      case OnGithub(owner, repo, number, comment) =>
        var id := ResourceIds.Print(owner, repo, number);
        tracked := tracked[c := Tracked(Github, id, None, None, None, Some(comment),
                                        Some(owner), Some(repo), Some(number), None, None, None)];
      case OnGitlab(project, noteable, iid, note) =>
        tracked := tracked[c := Tracked(Gitlab, "", Some(project), Some(noteable), Some(iid), Some(note),
                                        None, None, None, None, None, None)];
      case OnJira(issue, comment) =>
        tracked := tracked[c := Tracked(Jira, issue, None, None, None, Some(comment),
                                        None, None, None, None, None, None)];
      case OnSlack(channel, ts) =>
        tracked := tracked[c := Tracked(Slack, channel + ":" + ts, None, None, None, None,
                                        None, None, None, Some(channel), Some(ts), None)];
    }

    /** The write that tracking schedules. */
    method StoreMetadata(c: string, place: Place)
      modifies db`conversations
      ensures State(tracked, db.View()) == Stored(State(tracked, old(db.View())), c, place)
    {
      match place
      case OnGithub(_, _, number, comment) => db.StoreNoteMetadata(c, 0, "github", number, comment);
      case OnGitlab(project, noteable, iid, note) => db.StoreNoteMetadata(c, project, noteable, iid, note);
      case OnJira(_, comment) => db.StoreJiraComment(c, comment);
      case OnSlack(channel, ts) => db.StoreSlackMetadata(c, channel, ts);
    }

    /** Reload: cached conversations stay; every other conversation with a loadable row comes back
        from one of its rows. */
    method LoadFromDb()
      modifies this`tracked
      ensures tracked.Keys == old(tracked).Keys + LoadableConversations(db.View())
      ensures forall c | c in old(tracked) :: tracked[c] == old(tracked)[c]
      ensures forall c | c in tracked && c !in old(tracked) ::
        exists k :: LoadsFor(db.View(), k, c) && tracked[c] == FromRow(k, db.conversations[k])
      ensures old(tracked) == map[] ==> forall c | OneRow(db.View(), c) ::
        Get(tracked, c) == Get(Happens(State(map[], db.View()), Restart).tracked, c)
    {
      ghost var t := db.View();
      var todo := db.conversations.Keys;
      while todo != {}
        invariant todo <= db.conversations.Keys
        invariant tracked.Keys == old(tracked).Keys
          + (set k | k in t.conversations && k !in todo && LoadableRow(t.conversations[k]) ::
               t.conversations[k].conversation)
        invariant forall c | c in old(tracked) :: tracked[c] == old(tracked)[c]
        invariant forall c | c in tracked && c !in old(tracked) ::
          exists k :: LoadsFor(t, k, c) && tracked[c] == FromRow(k, t.conversations[k])
      {
        var k :| k in todo;
        var row := db.conversations[k];
        if LoadableRow(row) && row.conversation !in tracked {
          assert LoadsFor(t, k, row.conversation);
          tracked := tracked[row.conversation := FromRow(k, row)];
        }
        todo := todo - {k};
      }
      if old(tracked) == map[] {
        forall c | OneRow(t, c) ensures Get(tracked, c) == Get(Happens(State(map[], t), Restart).tracked, c) {
          LoadedIsReloaded(t, tracked, c);
          RestartLoads(State(map[], t), c);
        }
      }
    }

    /** Poll one tracked conversation: remember and post a changed status, forget a terminal one.  A
        post that raises ends the turn. */
    method PollConversation(c: string, a: Arrival, ghost t: Tracked)
      requires c in tracked && tracked[c] == t
      modifies this`tracked, this`posts, db`conversations
      ensures tracked == (if PolledEntry(t, Some(a)).None? then old(tracked) - {c}
                          else old(tracked)[c := PolledEntry(t, Some(a)).value])
      ensures db.View() == (if Changed(t, Some(a)) then old(db.View()).UpdateLastStatus(c, a.status)
                            else old(db.View()))
      ensures Log(posts, c) == Log(old(posts), c) + PostsOf(See(Some(t)), Some(a))
      ensures forall d | d != c :: Log(posts, d) == Log(old(posts), d)
    {
      var tc := tracked[c];
      if tc.lastStatus != Some(a.status) {
        tracked := tracked[c := tc.(lastStatus := Some(a.status))];
        db.UpdateLastStatus(c, a.status);
        var target := TargetOf(tc);
        if target.Some? {
          posts := LogOne(posts, c, Post(target.value, a.status));
          if a.raises {
            return;
          }
        }
      }
      if Terminal(a.status) {
        tracked := tracked - {c};
      }
    }

    /** One turn of the poll loop. */
    method PollListed(c: string, round: Round, ghost before: map<string, Tracked>,
                      ghost logged: map<string, seq<Post>>, ghost todo: set<string>)
      requires c in todo && todo <= before.Keys
      requires PartlyPolled(before, tracked, round, todo) && PartlyPosted(logged, posts, before, round, todo)
      modifies this`tracked, this`posts, db`conversations
      ensures PartlyPolled(before, tracked, round, todo - {c}) && PartlyPosted(logged, posts, before, round, todo - {c})
      ensures db.View() == if Changed(before[c], round.Of(c)) then old(db.View()).UpdateLastStatus(c, round.statuses[c])
                           else old(db.View())
    {
      ghost var cache, logs := tracked, posts;
      if c in round.statuses {
        PollConversation(c, Arrival(round.statuses[c], c in round.raising), before[c]);
      }
      PartlyPolledStep(before, cache, tracked, round, todo, c);
      PartlyPostedStep(logged, logs, posts, before, round, todo, c);
    }

    /** One poll of all tracked conversations, in whatever order the cache lists them. */
    method PollOnce(round: Round)
      modifies this`tracked, this`posts, db`conversations
      ensures tracked == PollTracked(old(tracked), round)
      ensures db.View() == PollTables(old(db.View()), old(tracked), round)
      ensures forall c :: Log(posts, c) == Log(old(posts), c) + PostsOf(See(Get(old(tracked), c)), round.Of(c))
    {
      ghost var before, t := tracked, db.View();
      var todo := tracked.Keys;
      NothingPolled(t, before, round);
      while todo != {}
        invariant todo <= before.Keys
        invariant PartlyPolled(before, tracked, round, todo)
        invariant db.View() == PollTables(t, before - todo, round)
        invariant PartlyPosted(old(posts), posts, before, round, todo)
      {
        var c :| c in todo;
        PollTablesStep(t, before, round, todo, c);
        PollListed(c, round, before, old(posts), todo);
        todo := todo - {c};
      }
      AllTablesPolled(t, before, round, todo);
      AllPolled(before, tracked, round);
      AllPosted(old(posts), posts, before, round);
    }
  }

  /** Into an empty cache, the reload loads what a restart of the model does. */
  lemma LoadedIsReloaded(t: Tables, tracked: map<string, Tracked>, c: string)
    requires OneRow(t, c) && tracked.Keys == LoadableConversations(t)
    requires c in tracked ==> exists k :: LoadsFor(t, k, c) && tracked[c] == FromRow(k, t.conversations[k])
    ensures Get(tracked, c) == Reloaded(t, c)
  {
    if c in tracked {
      var k :| LoadsFor(t, k, c) && tracked[c] == FromRow(k, t.conversations[k]);
      ReloadedIs(t, k, c);
    } else {
      forall k ensures !LoadsFor(t, k, c) {
        assert LoadsFor(t, k, c) ==> c in LoadableConversations(t);
      }
    }
  }

  lemma NothingPolled(t: Tables, before: map<string, Tracked>, round: Round)
    ensures PollTables(t, before - before.Keys, round) == t
  {
    assert PollTables(t, before - before.Keys, round).conversations == t.conversations;
  }

  lemma AllTablesPolled(t: Tables, before: map<string, Tracked>, round: Round, todo: set<string>)
    requires todo == {}
    ensures PollTables(t, before - todo, round) == PollTables(t, before, round)
  {
    assert before - todo == before;
  }

  /** The cache after polling all but the conversations in `todo`. */
  ghost predicate PartlyPolled(before: map<string, Tracked>, now: map<string, Tracked>, round: Round,
                               todo: set<string>)
  {
    && now.Keys <= before.Keys
    && (forall c | c in before && c in todo :: c in now && now[c] == before[c])
    && (forall c | c in before && c !in todo :: Get(now, c) == PolledEntry(before[c], round.Of(c)))
  }

  lemma PartlyPolledStep(before: map<string, Tracked>, now: map<string, Tracked>, next: map<string, Tracked>,
                         round: Round, todo: set<string>, c: string)
    requires PartlyPolled(before, now, round, todo) && c in todo && c in before
    requires next == var polled := PolledEntry(before[c], round.Of(c));
                     if c !in round.statuses then now else if polled.None? then now - {c} else now[c := polled.value]
    ensures PartlyPolled(before, next, round, todo - {c})
  {
  }

  /** The log after polling all but the conversations in `todo`. */
  ghost predicate PartlyPosted(logged: map<string, seq<Post>>, now: map<string, seq<Post>>,
                               before: map<string, Tracked>, round: Round, todo: set<string>)
  {
    && (forall c | c !in before || c in todo :: Log(now, c) == Log(logged, c))
    && (forall c | c in before && c !in todo ::
          Log(now, c) == Log(logged, c) + PostsOf(See(Some(before[c])), round.Of(c)))
  }

  lemma PartlyPostedStep(logged: map<string, seq<Post>>, now: map<string, seq<Post>>, next: map<string, seq<Post>>,
                         before: map<string, Tracked>, round: Round, todo: set<string>, c: string)
    requires PartlyPosted(logged, now, before, round, todo) && c in todo && c in before
    requires Log(next, c) == Log(now, c) + PostsOf(See(Some(before[c])), round.Of(c))
    requires forall d | d != c :: Log(next, d) == Log(now, d)
    ensures PartlyPosted(logged, next, before, round, todo - {c})
  {
  }

  lemma AllPosted(logged: map<string, seq<Post>>, now: map<string, seq<Post>>,
                  before: map<string, Tracked>, round: Round)
    requires PartlyPosted(logged, now, before, round, {})
    ensures forall c :: Log(now, c) == Log(logged, c) + PostsOf(See(Get(before, c)), round.Of(c))
  {
  }

  lemma AllPolled(before: map<string, Tracked>, now: map<string, Tracked>, round: Round)
    requires PartlyPolled(before, now, round, {})
    ensures now == PollTracked(before, round)
  {
    forall c ensures Get(now, c) == Get(PollTracked(before, round), c) {
    }
    forall c | c in now ensures c in PollTracked(before, round) && now[c] == PollTracked(before, round)[c] {
      assert Get(now, c) == Get(PollTracked(before, round), c);
    }
    forall c | c in PollTracked(before, round) ensures c in now {
      assert Get(now, c) == Get(PollTracked(before, round), c);
    }
  }

  /** Polling one more conversation updates that conversation's rows. */
  lemma PollTablesStep(t: Tables, before: map<string, Tracked>, round: Round, todo: set<string>, c: string)
    requires c in todo && c in before
    ensures PollTables(t, before - (todo - {c}), round)
         == if Changed(before[c], round.Of(c))
            then PollTables(t, before - todo, round).UpdateLastStatus(c, round.statuses[c])
            else PollTables(t, before - todo, round)
  {
    var now := PollTables(t, before - todo, round).conversations;
    var next := PollTables(t, before - (todo - {c}), round).conversations;
    forall k | k in t.conversations
      ensures now[k].conversation == t.conversations[k].conversation
      ensures next[k] == if now[k].conversation == c && Changed(before[c], round.Of(c))
                         then now[k].(lastStatus := Some(round.statuses[c]))
                         else now[k]
    {
      PollRowStep(t.conversations[k], before, round, todo, c);
    }
    if Changed(before[c], round.Of(c)) {
      assert next == PollTables(t, before - todo, round).UpdateLastStatus(c, round.statuses[c]).conversations;
    } else {
      assert next == now;
    }
  }

  lemma PollRowStep(r: Row, before: map<string, Tracked>, round: Round, todo: set<string>, c: string)
    requires c in todo && c in before
    ensures PollRow(r, before - (todo - {c}), round)
         == if r.conversation == c && Changed(before[c], round.Of(c)) then r.(lastStatus := Some(round.statuses[c]))
            else PollRow(r, before - todo, round)
    ensures r.conversation == c ==> PollRow(r, before - todo, round) == r
  {
  }
}
