/** Talking to the OpenHands API: polling a start task and fetching statuses in batches. */
module StatusFetch {
  import opened Options
  import opened Statuses
  import opened Text

  // ------------------------------------------------------------------ polling a start task

  const MAX_ATTEMPTS := 310

  /** What one attempt sees: an error or no task yet, a body that is not JSON, or the task's
      conversation and whether its status is final. */
  datatype Attempt = Nothing | Garbled | Task(conversation: string, final: bool)

  datatype StartResult = Started(conversation: string) | Failed | PollRaised

  predicate Decides(a: Attempt) {
    a.Garbled? || (a.Task? && (a.conversation != "" || a.final))
  }

  predicate FirstDecision(attempts: nat -> Attempt, n: nat) {
    Decides(attempts(n)) && forall m: nat | m < n :: !Decides(attempts(m))
  }

  /** Poll until an attempt decides: a conversation id wins even over a final status, a body that is
      not JSON raises, and after 310 undecided attempts the task has failed. */
  method PollStartTask(attempts: nat -> Attempt) returns (result: StartResult)
    ensures forall n: nat | n < 310 && FirstDecision(attempts, n) ::
              result == if attempts(n).Garbled? then PollRaised
                        else if attempts(n).conversation != "" then Started(attempts(n).conversation)
                        else Failed
    ensures (forall n: nat | n < 310 :: !Decides(attempts(n))) ==> result == Failed
  {
    for n := 0 to MAX_ATTEMPTS
      invariant forall m: nat | m < n :: !Decides(attempts(m))
    {
      var a := attempts(n);
      match a
      case Garbled => return PollRaised;
      case Nothing => continue;
      case Task(conversation, final) =>
        if conversation != "" {
          return Started(conversation);
        }
        if final {
          return Failed;
        }
    }
    return Failed;
  }

  // ------------------------------------------------------------------ mapping statuses

  /** A status from its upper-case name. */
  function Named(name: string): Status {
    match name
    case "RUNNING" => Running
    case "AWAITING_USER_INPUT" => AwaitingUserInput
    case "FINISHED" => Finished
    case "CLOSED" => Closed
    case "STOPPED" => Stopped
    case "ERROR" => Errored
    case _ => Other(name)
  }

  function MapExecution(execution: string): Status {
    if Lower(execution) == "paused" then Stopped else Named(Upper(execution))
  }

  /** One conversation in a reply; absent fields read as the empty string. */
  datatype Entry = Entry(id: string, execution: string, sandbox: string)

  function EntryStatus(e: Entry): Status {
    if e.execution != "" then MapExecution(e.execution)
    else if Upper(e.sandbox) == "PAUSED" then Closed
    else if Upper(e.sandbox) in {"MISSING", "ERROR"} then Errored
    else Running
  }

  lemma NamedIff(name: string)
    ensures Named(name) == Running <==> name == "RUNNING"
    ensures Named(name) == AwaitingUserInput <==> name == "AWAITING_USER_INPUT"
    ensures Named(name) == Finished <==> name == "FINISHED"
    ensures Named(name) == Closed <==> name == "CLOSED"
    ensures Named(name) == Stopped <==> name == "STOPPED"
    ensures Named(name) == Errored <==> name == "ERROR"
  {
  }

  lemma MapExecutionIs(execution: string)
    ensures MapExecution(execution) == if SameText(execution, "PAUSED") then Stopped else Named(Upper(execution))
  {
    LowerIs(execution, "paused");
    assert forall i | 0 <= i < 6 :: "paused"[i] as int == "PAUSED"[i] as int + 32;
    if SameText(execution, "PAUSED") {
      assert SameText(execution, "paused");
    }
    if SameText(execution, "paused") {
      assert SameText(execution, "PAUSED");
    }
  }

  lemma NamedSays(name: string)
    ensures Named(Upper(name)) == Running <==> SameText(name, "RUNNING")
    ensures Named(Upper(name)) == AwaitingUserInput <==> SameText(name, "AWAITING_USER_INPUT")
    ensures Named(Upper(name)) == Finished <==> SameText(name, "FINISHED")
    ensures Named(Upper(name)) == Closed <==> SameText(name, "CLOSED")
    ensures Named(Upper(name)) == Stopped <==> SameText(name, "STOPPED")
    ensures Named(Upper(name)) == Errored <==> SameText(name, "ERROR")
  {
    UpperIs(name, "RUNNING");
    UpperIs(name, "AWAITING_USER_INPUT");
    UpperIs(name, "FINISHED");
    UpperIs(name, "CLOSED");
    UpperIs(name, "STOPPED");
    UpperIs(name, "ERROR");
    NamedIff(Upper(name));
  }

  /** What an execution status says, in any letter case: the states the services know, paused as
      stopped, and any other as it is, in upper case. */
  lemma ExecutionSays(execution: string)
    ensures MapExecution(execution) == Stopped <==> SameText(execution, "STOPPED") || SameText(execution, "PAUSED")
    ensures !SameText(execution, "PAUSED") ==>
      && (MapExecution(execution) == Running <==> SameText(execution, "RUNNING"))
      && (MapExecution(execution) == AwaitingUserInput <==> SameText(execution, "AWAITING_USER_INPUT"))
      && (MapExecution(execution) == Finished <==> SameText(execution, "FINISHED"))
      && (MapExecution(execution) == Closed <==> SameText(execution, "CLOSED"))
      && (MapExecution(execution) == Errored <==> SameText(execution, "ERROR"))
      && (MapExecution(execution).Other? ==> MapExecution(execution).name == Upper(execution))
  {
    MapExecutionIs(execution);
    NamedSays(execution);
  }

  /** An entry's execution status decides; without one, a paused sandbox is closed, a missing or errored
      one an error, and anything else running. */
  lemma EntrySays(e: Entry)
    ensures if e.execution != "" then EntryStatus(e) == MapExecution(e.execution)
            else
              && (EntryStatus(e) == Closed <==> SameText(e.sandbox, "PAUSED"))
              && (EntryStatus(e) == Errored <==> SameText(e.sandbox, "MISSING") || SameText(e.sandbox, "ERROR"))
              && (EntryStatus(e) == Running <==>
                    !SameText(e.sandbox, "PAUSED") && !SameText(e.sandbox, "MISSING") && !SameText(e.sandbox, "ERROR"))
  {
    UpperIs(e.sandbox, "PAUSED");
    UpperIs(e.sandbox, "MISSING");
    UpperIs(e.sandbox, "ERROR");
  }

  // ------------------------------------------------------------------ chunks

  const CHUNK := 20

  function Chunks(ids: seq<string>): (r: seq<seq<string>>) {
    if ids == [] then []
    else if |ids| <= CHUNK then [ids]
    else [ids[..CHUNK]] + Chunks(ids[CHUNK..])
  }

  function Flatten(chunks: seq<seq<string>>): seq<string> {
    if chunks == [] then [] else chunks[0] + Flatten(chunks[1..])
  }

  /** Exactly full chunks in front of the others. */
  lemma OneChunkMore(first: seq<string>, rest: seq<seq<string>>)
    requires |first| == 20 && forall c | c in rest :: 0 < |c| <= 20
    requires forall i | 0 <= i < |rest| - 1 :: |rest[i]| == 20
    ensures forall c | c in [first] + rest :: 0 < |c| <= 20
    ensures forall i | 0 <= i < |[first] + rest| - 1 :: |([first] + rest)[i]| == 20
  {
  }

  /** The chunks are the ids in order, none empty, none over 20, all full but the last. */
  lemma {:induction false} ChunksPartition(ids: seq<string>)
    ensures Flatten(Chunks(ids)) == ids
    ensures forall c | c in Chunks(ids) :: 0 < |c| <= 20
    ensures forall i | 0 <= i < |Chunks(ids)| - 1 :: |Chunks(ids)[i]| == 20
    ensures |Chunks(ids)| == (|ids| + 19) / 20
    decreases |ids|
  {
    if |ids| > CHUNK {
      ChunksPartition(ids[CHUNK..]);
      var rest := Chunks(ids[CHUNK..]);
      assert Chunks(ids) == [ids[..CHUNK]] + rest && Chunks(ids)[1..] == rest;
      OneChunkMore(ids[..CHUNK], rest);
      assert ids == ids[..CHUNK] + ids[CHUNK..];
    } else if ids != [] {
      assert Flatten([ids]) == ids + Flatten([]);
    }
  }

  method MakeChunks(ids: seq<string>) returns (chunks: seq<seq<string>>)
    ensures chunks == Chunks(ids)
  {
    chunks := [];
    var i := 0;
    while i < |ids|
      invariant 0 <= i
      invariant Chunks(ids) == chunks + (if i < |ids| then Chunks(ids[i..]) else [])
    {
      var end := if i + CHUNK < |ids| then i + CHUNK else |ids|;
      if i + CHUNK < |ids| {
        assert ids[i..][..CHUNK] == ids[i..end] && ids[i..][CHUNK..] == ids[i + CHUNK..];
      } else {
        assert ids[i..end] == ids[i..];
      }
      chunks := chunks + [ids[i..end]];
      i := i + CHUNK;
    }
  }

  // ------------------------------------------------------------------ batch fetch

  /** A reply may fail, not be JSON, be some other JSON value, or list entries. */
  datatype Reply = HttpError | Garbled | NotAList | Listed(entries: seq<Entry>)

  /** All entries of the first `n` replies that are lists. */
  function Entries(replies: nat -> Reply, n: nat): seq<Entry> {
    if n == 0 then []
    else Entries(replies, n - 1) + (if replies(n - 1).Listed? then replies(n - 1).entries else [])
  }

  function Latest(entries: seq<Entry>): map<string, Status> {
    if entries == [] then map[]
    else
      var m, last := Latest(entries[..|entries| - 1]), entries[|entries| - 1];
      if last.id == "" then m else m[last.id := EntryStatus(last)]
  }

  predicate IsLatest(entries: seq<Entry>, i: nat, id: string) {
    i < |entries| && entries[i].id == id && forall j | i < j < |entries| :: entries[j].id != id
  }

  /** A conversation has a status exactly when some entry names it, and it is that of the last one. */
  lemma {:induction false} LatestIff(entries: seq<Entry>, id: string)
    ensures id in Latest(entries) <==> id != "" && exists i | 0 <= i < |entries| :: entries[i].id == id
    ensures id != "" ==> forall i: nat | i < |entries| && IsLatest(entries, i, id) ::
              id in Latest(entries) && Latest(entries)[id] == EntryStatus(entries[i])
  {
    if entries != [] {
      var front, n := entries[..|entries| - 1], |entries| - 1;
      LatestIff(front, id);
      if i :| 0 <= i < |front| && front[i].id == id {
        assert entries[i].id == id;
      }
      if i :| 0 <= i < |entries| && entries[i].id == id {
        assert i == n || front[i].id == id;
      }
      forall i: nat | i < |entries| && IsLatest(entries, i, id) ensures i == n || IsLatest(front, i, id) {
      }
    }
  }

  function StatusIn(entries: seq<Entry>, id: string): Option<Status> {
    if id in Latest(entries) then Some(Latest(entries)[id]) else None
  }

  /** More entries decide if they say anything, and change nothing if they do not. */
  lemma {:induction false} LatestSplits(before: seq<Entry>, entries: seq<Entry>, id: string)
    ensures StatusIn(before + entries, id)
         == if id in Latest(entries) then StatusIn(entries, id) else StatusIn(before, id)
  {
    if entries == [] {
      assert before + entries == before;
    } else {
      var front := entries[..|entries| - 1];
      LatestSplits(before, front, id);
      assert (before + entries)[..|before + entries| - 1] == before + front;
    }
  }

  /** The reply names the conversation. */
  predicate Names(reply: Reply, id: string) {
    reply.Listed? && exists i | 0 <= i < |reply.entries| :: reply.entries[i].id == id
  }

  /** Reply `m` is the last of the first `n` to name the conversation, and does so last in entry `i`. */
  predicate SaidLast(replies: nat -> Reply, n: nat, m: nat, i: nat, id: string) {
    && m < n && replies(m).Listed? && IsLatest(replies(m).entries, i, id)
    && forall l: nat | m < l < n :: !Names(replies(l), id)
  }

  lemma SilentReply(replies: nat -> Reply, m: nat, id: string)
    requires id != "" && !Names(replies(m), id)
    ensures StatusIn(Entries(replies, m + 1), id) == StatusIn(Entries(replies, m), id)
  {
    EntriesNext(replies, m);
    if replies(m).Listed? {
      LatestSplits(Entries(replies, m), replies(m).entries, id);
      LatestIff(replies(m).entries, id);
    }
  }

  lemma NamingReply(replies: nat -> Reply, m: nat, i: nat, id: string)
    requires id != "" && replies(m).Listed? && IsLatest(replies(m).entries, i, id)
    ensures StatusIn(Entries(replies, m + 1), id) == Some(EntryStatus(replies(m).entries[i]))
  {
    EntriesNext(replies, m);
    LatestSplits(Entries(replies, m), replies(m).entries, id);
    LatestIff(replies(m).entries, id);
  }

  /** The fetched status of a conversation is that of the last entry naming it in the last reply that
      names it ... */
  lemma {:induction false} FetchedSays(replies: nat -> Reply, n: nat, m: nat, i: nat, id: string)
    requires id != "" && SaidLast(replies, n, m, i, id)
    ensures StatusIn(Entries(replies, n), id) == Some(EntryStatus(replies(m).entries[i]))
  {
    if m == n - 1 {
      NamingReply(replies, m, i, id);
    } else {
      SilentReply(replies, n - 1, id);
      FetchedSays(replies, n - 1, m, i, id);
    }
  }

  /** ... and it has none exactly when no reply names it. */
  lemma {:induction false} FetchedNoneIff(replies: nat -> Reply, n: nat, id: string)
    requires id != ""
    ensures StatusIn(Entries(replies, n), id) == None <==> forall m: nat | m < n :: !Names(replies(m), id)
  {
    if n > 0 {
      var m := n - 1;
      FetchedNoneIff(replies, m, id);
      if Names(replies(m), id) {
        var i := LatestIndex(replies(m).entries, id);
        NamingReply(replies, m, i, id);
      } else {
        SilentReply(replies, m, id);
      }
    }
  }

  lemma {:induction false} LatestIndex(entries: seq<Entry>, id: string) returns (i: nat)
    requires exists j | 0 <= j < |entries| :: entries[j].id == id
    ensures IsLatest(entries, i, id)
  {
    var front := entries[..|entries| - 1];
    if entries[|entries| - 1].id == id {
      i := |entries| - 1;
    } else {
      var j :| 0 <= j < |entries| && entries[j].id == id;
      assert front[j].id == id;
      i := LatestIndex(front, id);
    }
  }

  lemma LatestAppend(entries: seq<Entry>, e: Entry)
    ensures Latest(entries + [e]) == if e.id == "" then Latest(entries) else Latest(entries)[e.id := EntryStatus(e)]
  {
    assert (entries + [e])[..|entries|] == entries;
  }

  /** Take over the entries of one reply. */
  method Absorb(entries: seq<Entry>, known: map<string, Status>, ghost before: seq<Entry>)
    returns (result: map<string, Status>)
    requires known == Latest(before)
    ensures result == Latest(before + entries)
  {
    result := known;
    assert before + entries[..0] == before;
    for i := 0 to |entries|
      invariant result == Latest(before + entries[..i])
    {
      var e := entries[i];
      LatestAppend(before + entries[..i], e);
      assert before + entries[..i + 1] == (before + entries[..i]) + [e];
      if e.id != "" {
        result := result[e.id := EntryStatus(e)];
      }
    }
    assert entries[..|entries|] == entries;
  }

  lemma EntriesNext(replies: nat -> Reply, n: nat)
    ensures Entries(replies, n + 1) == Entries(replies, n) + (if replies(n).Listed? then replies(n).entries else [])
    ensures !replies(n).Listed? ==> Entries(replies, n + 1) == Entries(replies, n)
  {
  }

  /** Fetch statuses chunk by chunk.  A failed reply, or one that is no list, loses its own chunk only;
      a body that is not JSON raises and loses everything. */
  method FetchStatuses(ids: seq<string>, replies: nat -> Reply) returns (result: Option<map<string, Status>>)
    ensures result.None? <==> exists n: nat | n < |Chunks(ids)| :: replies(n).Garbled?
    ensures result.Some? ==> result.value == Latest(Entries(replies, |Chunks(ids)|))
  {
    var statuses := map[];
    var chunks := MakeChunks(ids);
    for n := 0 to |chunks|
      invariant statuses == Latest(Entries(replies, n))
      invariant forall m: nat | m < n :: !replies(m).Garbled?
    {
      var reply := replies(n);
      if reply.Garbled? {
        return None;
      }
      EntriesNext(replies, n);
      if reply.Listed? {
        statuses := Absorb(reply.entries, statuses, Entries(replies, n));
      }
    }
    return Some(statuses);
  }
}
