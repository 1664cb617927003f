/** The shared database: conversation map, pending messages and write-once links.

    `Tables` is the value of all tables at one moment; its functions say what one
    transaction returns and leaves behind.  `Database` is the mutable store, whose
    methods are proved against those functions. */
module Tables {
  import opened Options
  import opened Statuses

  const PENDING := "__pending__"
  const PENDING_TIMEOUT := 120.0

  /** Where a resource lives; agents may also link resources of platforms without a handler. */
  datatype Source = Github | Gitlab | Jira | Slack | OtherSource(name: string)

  datatype Key = Key(source: Source, resourceType: string, resourceId: string)

  function IssueKey(issue: string): Key {
    Key(Jira, "issue", issue)
  }

  datatype Row = Row(
    conversation: string,
    createdAt: real,
    projectId: Option<int>,
    noteableType: Option<string>,
    noteableIid: Option<int>,
    noteId: Option<int>,
    slackChannel: Option<string>,
    slackTs: Option<string>,
    lastStatus: Option<Status>)

  function NewRow(conversation: string, now: real): Row {
    Row(conversation, now, None, None, None, None, None, None, None)
  }

  /** A queued message; `id` is the autoincrement primary key. */
  datatype Message = Message(id: nat, key: Key, text: string)

  /** The messages of one resource, in queue order. */
  function Of(ms: seq<Message>, k: Key): seq<Message> {
    if ms == [] then []
    else Of(ms[..|ms| - 1], k) + (if ms[|ms| - 1].key == k then [ms[|ms| - 1]] else [])
  }

  /** The messages of every other resource, in queue order. */
  function Without(ms: seq<Message>, k: Key): seq<Message> {
    if ms == [] then []
    else Without(ms[..|ms| - 1], k) + (if ms[|ms| - 1].key == k then [] else [ms[|ms| - 1]])
  }

  datatype Tables = Tables(
    conversations: map<Key, Row>,
    pending: seq<Message>,
    nextId: nat,
    links: map<Key, string>,
    tickets: map<string, string>)
  {
    predicate IsPending(k: Key) {
      k in conversations && conversations[k].conversation == PENDING
    }

    /** A marker older than the timeout, measured from the row's insertion. */
    predicate Stale(k: Key, now: real) {
      IsPending(k) && now - conversations[k].createdAt > PENDING_TIMEOUT
    }

    function Lookup(k: Key, now: real): (Tables, Option<string>) {
      if k !in conversations then (this, None)
      else if Stale(k, now) then
        (this.(conversations := conversations - {k}, pending := Without(pending, k)), None)
      else (this, Some(conversations[k].conversation))
    }

    function StoreConversation(k: Key, conversation: string, now: real): Tables {
      this.(conversations := conversations[k :=
        if k in conversations then conversations[k].(conversation := conversation)
        else NewRow(conversation, now)])
    }

    function ClearConversation(k: Key): Tables {
      this.(conversations := conversations - {k})
    }

    function QueueMessage(k: Key, text: string): Tables {
      this.(pending := pending + [Message(nextId, k, text)], nextId := nextId + 1)
    }

    function TakePending(k: Key): (Tables, seq<Message>) {
      (this.(pending := Without(pending, k)), Of(pending, k))
    }

    function GetLink(k: Key): Option<string> {
      if k in links then Some(links[k]) else None
    }

    function GetTicket(issue: string): Option<string> {
      if issue in tickets then Some(tickets[issue]) else None
    }

    function LinkResource(conversation: string, k: Key): (Tables, bool) {
      if k in links then (this, false)
      else (this.(links := links[k := conversation]), true)
    }

    function InsertTicket(conversation: string, issue: string): (Tables, bool) {
      if issue in tickets then (this, false)
      else (this.(tickets := tickets[issue := conversation]), true)
    }

    /** Two transactions: the ticket, and for a new ticket its link. */
    function LinkTicket(conversation: string, issue: string): (Tables, bool) {
      var (ticketed, inserted) := InsertTicket(conversation, issue);
      (if inserted then ticketed.LinkResource(conversation, IssueKey(issue)).0 else ticketed, inserted)
    }

    function StoreNoteMetadata(conversation: string, projectId: int, noteableType: string,
                               noteableIid: int, noteId: int): Tables
    {
      this.(conversations := map k | k in conversations ::
        var r := conversations[k];
        if r.conversation == conversation
        then r.(projectId := Some(projectId), noteableType := Some(noteableType),
                noteableIid := Some(noteableIid), noteId := Some(noteId))
        else r)
    }

    function StoreJiraComment(conversation: string, comment: int): Tables {
      this.(conversations := map k | k in conversations ::
        var r := conversations[k];
        if r.conversation == conversation then r.(noteId := Some(comment)) else r)
    }

    function StoreSlackMetadata(conversation: string, channel: string, ts: string): Tables {
      this.(conversations := map k | k in conversations ::
        var r := conversations[k];
        if r.conversation == conversation then r.(slackChannel := Some(channel), slackTs := Some(ts)) else r)
    }

    function UpdateLastStatus(conversation: string, status: Status): Tables {
      this.(conversations := map k | k in conversations ::
        var r := conversations[k];
        if r.conversation == conversation then r.(lastStatus := Some(status)) else r)
    }
  }

  // ------------------------------------------------------------------ laws

  lemma OfAppend(ms: seq<Message>, m: Message, k: Key)
    ensures Of(ms + [m], k) == Of(ms, k) + (if m.key == k then [m] else [])
  {
    assert (ms + [m])[..|ms|] == ms;
  }

  /** Taking one resource's messages leaves every other resource's queue as it was. */
  lemma {:induction false} OfWithout(ms: seq<Message>, gone: Key, k: Key)
    ensures Of(Without(ms, gone), k) == if k == gone then [] else Of(ms, k)
  {
    if ms != [] {
      var front, last := ms[..|ms| - 1], ms[|ms| - 1];
      OfWithout(front, gone, k);
      if last.key == gone {
        assert Without(ms, gone) == Without(front, gone);
      } else {
        OfAppend(Without(front, gone), last, k);
      }
    }
  }

  /** What a look-up answers and leaves: the row's conversation, unless it is a marker inserted more than
      120 seconds ago; such a marker goes together with its queue, and nothing else does. */
  lemma LookupIff(t: Tables, k: Key, now: real, conversation: string, other: Key)
    ensures var (t', found) := t.Lookup(k, now);
            && (found == Some(conversation) <==>
                  && k in t.conversations && t.conversations[k].conversation == conversation
                  && (conversation == "__pending__" ==> now - t.conversations[k].createdAt <= 120.0))
            && (if k in t.conversations && t.conversations[k].conversation == "__pending__"
                   && now - t.conversations[k].createdAt > 120.0 then
                  && found == None && k !in t'.conversations && Of(t'.pending, k) == []
                  && (other != k ==>
                        && (other in t'.conversations <==> other in t.conversations)
                        && (other in t.conversations ==> t'.conversations[other] == t.conversations[other])
                        && Of(t'.pending, other) == Of(t.pending, other))
                  && t'.links == t.links && t'.tickets == t.tickets && t'.nextId == t.nextId
                else t' == t)
  {
    OfWithout(t.pending, k, k);
    OfWithout(t.pending, k, other);
  }

  /** Storing inserts a row with its time and nothing else on it, or moves an existing row to the
      conversation and keeps all else on it; every other row stays. */
  lemma StoredRowIs(t: Tables, k: Key, conversation: string, now: real, other: Key)
    ensures var t' := t.StoreConversation(k, conversation, now);
            && (k !in t.conversations ==>
                  && k in t'.conversations
                  && t'.conversations[k].conversation == conversation && t'.conversations[k].createdAt == now
                  && t'.conversations[k].lastStatus == None && t'.conversations[k].noteId == None
                  && t'.conversations[k].slackTs == None && t'.conversations[k].slackChannel == None
                  && t'.conversations[k].projectId == None && t'.conversations[k].noteableType == None
                  && t'.conversations[k].noteableIid == None)
            && (k in t.conversations ==>
                  k in t'.conversations && t'.conversations[k] == t.conversations[k].(conversation := conversation))
            && (other != k ==>
                  && (other in t'.conversations <==> other in t.conversations)
                  && (other in t.conversations ==> t'.conversations[other] == t.conversations[other]))
            && t'.(conversations := t.conversations) == t
  {
  }

  /** A new ticket is linked together with its issue, unless the issue has a link already; a known
      ticket changes neither. */
  lemma TicketIsLinked(t: Tables, conversation: string, issue: string, other: Key)
    ensures var (t', inserted) := t.LinkTicket(conversation, issue);
            if t.GetTicket(issue).Some? then !inserted && t' == t
            else
              && inserted && t'.GetTicket(issue) == Some(conversation)
              && t'.GetLink(IssueKey(issue)) == (if t.GetLink(IssueKey(issue)).Some? then t.GetLink(IssueKey(issue))
                                                 else Some(conversation))
              && (other != IssueKey(issue) ==> t'.GetLink(other) == t.GetLink(other))
              && t'.conversations == t.conversations && t'.pending == t.pending
  {
  }

  /** A stored marker is honoured exactly while the row's first insertion is at most 120 seconds ago;
      a marker written over an older row is already stale, because the upsert keeps `created_at`. */
  lemma MarkerHonoured(t: Tables, k: Key, written: real, read: real)
    ensures var created := if k in t.conversations then t.conversations[k].createdAt else written;
            var marked := t.StoreConversation(k, PENDING, written);
            && (marked.Lookup(k, read).1 == Some(PENDING) <==> read - created <= PENDING_TIMEOUT)
            && (marked.Lookup(k, read).1 == None <==> read - created > PENDING_TIMEOUT)
            && (read - created > PENDING_TIMEOUT ==>
                  && k !in marked.Lookup(k, read).0.conversations
                  && Of(marked.Lookup(k, read).0.pending, k) == [])
  {
    OfWithout(t.pending, k, k);
  }

  /** A resolved conversation is found at any later time, whatever was stored before it. */
  lemma StoredIsFound(t: Tables, k: Key, conversation: string, now: real, read: real)
    requires conversation != PENDING
    ensures t.StoreConversation(k, conversation, now).Lookup(k, read)
         == (t.StoreConversation(k, conversation, now), Some(conversation))
  {
  }

  /** Draining: the batch is everything queued for the key, the key's queue is empty afterwards,
      and no other key's queue moves. */
  lemma TakeDrains(t: Tables, k: Key, other: Key)
    ensures t.TakePending(k).1 == Of(t.pending, k)
    ensures Of(t.TakePending(k).0.pending, other) == if other == k then [] else Of(t.pending, other)
  {
    OfWithout(t.pending, k, other);
  }

  /** First in, first out: a queued message is the last of its key's next batch, and of no other. */
  lemma QueuedIsTaken(t: Tables, k: Key, text: string, other: Key)
    ensures t.QueueMessage(k, text).TakePending(other).1
         == t.TakePending(other).1 + (if other == k then [Message(t.nextId, k, text)] else [])
  {
    OfAppend(t.pending, Message(t.nextId, k, text), other);
  }

  // ------------------------------------------------------------------ metadata

  /** The tables without any metadata on their rows. */
  function Bare(t: Tables): Tables {
    t.(conversations := map k | k in t.conversations ::
      NewRow(t.conversations[k].conversation, t.conversations[k].createdAt))
  }

  /** A metadata write changes no mapping, marker, queue or link. */
  lemma NoteMetadataIsBare(t: Tables, c: string, project: int, noteable: string, iid: int, note: int)
    ensures Bare(t.StoreNoteMetadata(c, project, noteable, iid, note)) == Bare(t)
  {
    assert Bare(t.StoreNoteMetadata(c, project, noteable, iid, note)).conversations == Bare(t).conversations;
  }

  lemma JiraCommentIsBare(t: Tables, c: string, comment: int)
    ensures Bare(t.StoreJiraComment(c, comment)) == Bare(t)
  {
    assert Bare(t.StoreJiraComment(c, comment)).conversations == Bare(t).conversations;
  }

  lemma SlackMetadataIsBare(t: Tables, c: string, channel: string, ts: string)
    ensures Bare(t.StoreSlackMetadata(c, channel, ts)) == Bare(t)
  {
    assert Bare(t.StoreSlackMetadata(c, channel, ts)).conversations == Bare(t).conversations;
  }

  lemma LastStatusIsBare(t: Tables, c: string, status: Status)
    ensures Bare(t.UpdateLastStatus(c, status)) == Bare(t)
  {
    assert Bare(t.UpdateLastStatus(c, status)).conversations == Bare(t).conversations;
  }

  /** No transaction of a handler or task depends on metadata: it answers, and changes the bare
      tables, as it would on bare tables. */
  lemma LookupIsBare(t: Tables, k: Key, now: real)
    ensures Bare(t).Stale(k, now) == t.Stale(k, now) && Bare(t).IsPending(k) == t.IsPending(k)
    ensures Bare(t).Lookup(k, now) == (Bare(t.Lookup(k, now).0), t.Lookup(k, now).1)
  {
    assert Bare(t).conversations - {k} == Bare(t.(conversations := t.conversations - {k})).conversations;
  }

  lemma StoreIsBare(t: Tables, k: Key, conversation: string, now: real)
    ensures Bare(t).StoreConversation(k, conversation, now) == Bare(t.StoreConversation(k, conversation, now))
    ensures Bare(t).ClearConversation(k) == Bare(t.ClearConversation(k))
  {
    assert Bare(t).StoreConversation(k, conversation, now).conversations
        == Bare(t.StoreConversation(k, conversation, now)).conversations;
    assert Bare(t).ClearConversation(k).conversations == Bare(t.ClearConversation(k)).conversations;
  }

  // ------------------------------------------------------------------ store

  class Database {
    var conversations: map<Key, Row>
    var pending: seq<Message>
    var nextId: nat
    var links: map<Key, string>
    var tickets: map<string, string>

    function View(): Tables
      reads this
    {
      Tables(conversations, pending, nextId, links, tickets)
    }

    constructor ()
      ensures View() == Tables(map[], [], 0, map[], map[])
    {
      conversations, pending, nextId, links, tickets := map[], [], 0, map[], map[];
    }

    /** Look up a resource's conversation, clearing a stale marker and its queue on the way. */
    method LookupConversation(k: Key, now: real) returns (found: Option<string>)
      modifies this
      ensures (View(), found) == old(View()).Lookup(k, now)
    {
      if k !in conversations {
        return None;
      }
      var row := conversations[k];
      if row.conversation == PENDING {
        var age := now - row.createdAt;
        if age > PENDING_TIMEOUT {
          conversations := conversations - {k};
          DeletePending(k);
          return None;
        }
      }
      return Some(row.conversation);
    }

    method DeletePending(k: Key)
      modifies this`pending
      ensures pending == Without(old(pending), k)
    {
      var kept := [];
      for i := 0 to |pending|
        invariant pending == old(pending)
        invariant kept == Without(pending[..i], k)
      {
        assert pending[..i + 1][..i] == pending[..i];
        if pending[i].key != k {
          kept := kept + [pending[i]];
        }
      }
      assert pending[..|pending|] == pending;
      pending := kept;
    }

    method StoreConversation(k: Key, conversation: string, now: real)
      modifies this`conversations
      ensures View() == old(View()).StoreConversation(k, conversation, now)
    {
      if k in conversations {
        conversations := conversations[k := conversations[k].(conversation := conversation)];
      } else {
        conversations := conversations[k := NewRow(conversation, now)];
      }
    }

    method ClearConversation(k: Key)
      modifies this`conversations
      ensures View() == old(View()).ClearConversation(k)
    {
      conversations := conversations - {k};
    }

    method QueueMessage(k: Key, text: string)
      modifies this`pending, this`nextId
      ensures View() == old(View()).QueueMessage(k, text)
    {
      pending, nextId := pending + [Message(nextId, k, text)], nextId + 1;
    }

    /** Read and delete everything queued for a resource, in one transaction. */
    method TakePending(k: Key) returns (batch: seq<Message>)
      modifies this`pending
      ensures (View(), batch) == old(View()).TakePending(k)
    {
      batch := [];
      for i := 0 to |pending|
        invariant batch == Of(pending[..i], k)
      {
        assert pending[..i + 1][..i] == pending[..i];
        if pending[i].key == k {
          batch := batch + [pending[i]];
        }
      }
      assert pending[..|pending|] == pending;
      if batch != [] {
        DeletePending(k);
      } else {
        NothingToDelete(pending, k);
      }
    }

    method LinkResource(conversation: string, k: Key) returns (inserted: bool)
      modifies this`links
      ensures (View(), inserted) == old(View()).LinkResource(conversation, k)
    {
      if k in links {
        return false;
      }
      links := links[k := conversation];
      return true;
    }

    method InsertTicket(conversation: string, issue: string) returns (inserted: bool)
      modifies this`tickets
      ensures (View(), inserted) == old(View()).InsertTicket(conversation, issue)
    {
      if issue in tickets {
        return false;
      }
      tickets := tickets[issue := conversation];
      return true;
    }

    method LinkTicket(conversation: string, issue: string) returns (inserted: bool)
      modifies this`links, this`tickets
      ensures (View(), inserted) == old(View()).LinkTicket(conversation, issue)
    {
      inserted := InsertTicket(conversation, issue);
      if inserted {
        var _ := LinkResource(conversation, IssueKey(issue));
      }
    }

    method StoreNoteMetadata(conversation: string, projectId: int, noteableType: string,
                             noteableIid: int, noteId: int)
      modifies this`conversations
      ensures View() == old(View()).StoreNoteMetadata(conversation, projectId, noteableType, noteableIid, noteId)
    {
      conversations := map k | k in conversations ::
        var r := conversations[k];
        if r.conversation == conversation
        then r.(projectId := Some(projectId), noteableType := Some(noteableType),
                noteableIid := Some(noteableIid), noteId := Some(noteId))
        else r;
    }

    method StoreJiraComment(conversation: string, comment: int)
      modifies this`conversations
      ensures View() == old(View()).StoreJiraComment(conversation, comment)
    {
      conversations := map k | k in conversations ::
        var r := conversations[k];
        if r.conversation == conversation then r.(noteId := Some(comment)) else r;
    }

    method StoreSlackMetadata(conversation: string, channel: string, ts: string)
      modifies this`conversations
      ensures View() == old(View()).StoreSlackMetadata(conversation, channel, ts)
    {
      conversations := map k | k in conversations ::
        var r := conversations[k];
        if r.conversation == conversation then r.(slackChannel := Some(channel), slackTs := Some(ts)) else r;
    }

    method UpdateLastStatus(conversation: string, status: Status)
      modifies this`conversations
      ensures View() == old(View()).UpdateLastStatus(conversation, status)
    {
      conversations := map k | k in conversations ::
        var r := conversations[k];
        if r.conversation == conversation then r.(lastStatus := Some(status)) else r;
    }
  }

  lemma {:induction false} NothingToDelete(ms: seq<Message>, k: Key)
    requires Of(ms, k) == []
    ensures Without(ms, k) == ms
  {
    if ms != [] {
      var front, last := ms[..|ms| - 1], ms[|ms| - 1];
      assert |Of(ms, k)| == |Of(front, k)| + (if last.key == k then 1 else 0);
      assert last.key != k && Of(front, k) == [];
      NothingToDelete(front, k);
      assert Without(ms, k) == front + [last];
    }
  }
}
