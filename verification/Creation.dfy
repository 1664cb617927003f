/** A comment handler and a background creation task run without interference, on the mutable store. */
module Creation {
  import opened Options
  import opened Tables
  import opened Inference

  datatype Created = Created(conversation: string) | NotCreated | CreateRaised

  datatype Delivery = Delivered | Refused | SendRaised

  /** The marker and the queue are gone; a resolved conversation stays. */
  function Cleared(t: Tables, k: Key): Tables {
    (if t.IsPending(k) then t.ClearConversation(k) else t).TakePending(k).0
  }

  function Resolved(t: Tables, k: Key, conversation: string, now: real): Tables {
    t.StoreConversation(k, conversation, now).TakePending(k).0
  }

  /** Clearing removes a marker but no resolved row, empties the key's queue, and touches no other key. */
  lemma ClearedLeaves(t: Tables, k: Key, other: Key)
    ensures var t' := Cleared(t, k);
            && !t'.IsPending(k) && Of(t'.pending, k) == []
            && (if other == k && k in t.conversations && t.conversations[k].conversation == "__pending__"
                then other !in t'.conversations
                else (other in t'.conversations <==> other in t.conversations)
                     && (other in t.conversations ==> t'.conversations[other] == t.conversations[other]))
            && (other != k ==> Of(t'.pending, other) == Of(t.pending, other))
            && t'.links == t.links && t'.tickets == t.tickets
  {
    OfWithout(t.pending, k, k);
    OfWithout(t.pending, k, other);
  }

  /** Resolving makes the key lead to the conversation at any later time, empties its queue, and
      touches no other key. */
  lemma ResolvedLeaves(t: Tables, k: Key, conversation: string, now: real, read: real, other: Key)
    requires conversation != PENDING
    ensures var t' := Resolved(t, k, conversation, now);
            && t'.Lookup(k, read).1 == Some(conversation) && Of(t'.pending, k) == []
            && (other != k ==>
                  && (other in t'.conversations <==> other in t.conversations)
                  && (other in t.conversations ==> t'.conversations[other] == t.conversations[other])
                  && Of(t'.pending, other) == Of(t.pending, other))
            && t'.links == t.links && t'.tickets == t.tickets
  {
    OfWithout(t.pending, k, k);
    OfWithout(t.pending, k, other);
  }

  lemma TakenTwice(ms: seq<Message>, k: Key)
    ensures Without(Without(ms, k), k) == Without(ms, k)
  {
    OfWithout(ms, k, k);
    NothingToDelete(Without(ms, k), k);
  }

  method ClearPending(db: Database, k: Key, now: real)
    modifies db
    ensures db.View() == Cleared(old(db.View()), k)
  {
    var existing := db.LookupConversation(k, now);
    if existing == Some(PENDING) {
      db.ClearConversation(k);
    }
    TakenTwice(old(db.pending), k);
    var _ := db.TakePending(k);
  }

  /** How many of `n` messages are attempted: all of them, or those up to the first that raises. */
  function Attempted(answers: seq<Delivery>, n: nat): (r: nat)
    ensures r <= n
    ensures r < n ==> 0 < r <= |answers| && answers[r - 1].SendRaised?
    ensures forall i | 0 <= i < r - 1 && i < |answers| :: !answers[i].SendRaised?
  {
    if n == 0 then 0
    else
      var r := Attempted(answers, n - 1);
      if r < n - 1 || (0 < r <= |answers| && answers[r - 1].SendRaised?) then r else n
  }

  /** The texts are those of the batch, in order, up to and including the first whose send raises. */
  predicate SentOf(batch: seq<Message>, answers: seq<Delivery>, sent: seq<string>) {
    && |sent| == Attempted(answers, |batch|)
    && forall j | 0 <= j < |sent| :: sent[j] == batch[j].text
  }

  /** What a creation task leaves, and what it has tried to send. */
  predicate CreatedAs(t: Tables, k: Key, created: Created, answers: seq<Delivery>, now: real,
                      t': Tables, sent: seq<string>)
  {
    if created.Created? then
      t' == Resolved(t, k, created.conversation, now) && SentOf(Of(t.pending, k), answers, sent)
    else t' == Cleared(t, k) && sent == []
  }

  /** Create the conversation, resolve the marker and flush the queue into it in order; on any
      failure clear the marker and the queue instead.  An exception after the marker was resolved
      changes no table any more, it only ends the flush. */
  method BackgroundCreate(db: Database, k: Key, created: Created, answers: seq<Delivery>,
                          reportRaises: bool, now: real)
    returns (sent: seq<string>)
    requires created.Created? ==> created.conversation != PENDING
    modifies db
    ensures CreatedAs(old(db.View()), k, created, answers, now, db.View(), sent)
  {
    sent := [];
    ghost var before := db.View();
    if created.NotCreated? {
      ClearPending(db, k, now);
      if reportRaises {
        ClearPending(db, k, now);
        TakenTwice(before.pending, k);
      }
      return;
    }
    if created.CreateRaised? {
      ClearPending(db, k, now);
      return;
    }
    db.StoreConversation(k, created.conversation, now);
    var batch := db.TakePending(k);
    var raised := false;
    var i := 0;
    while i < |batch| && !raised
      invariant 0 <= i <= |batch|
      invariant |sent| == i && forall j | 0 <= j < i :: sent[j] == batch[j].text
      invariant !raised ==> Attempted(answers, i) == i && (0 < i <= |answers| ==> !answers[i - 1].SendRaised?)
      invariant raised ==> 0 < i <= |answers| && answers[i - 1].SendRaised? && Attempted(answers, i) == i
    {
      sent := sent + [batch[i].text];
      raised := i < |answers| && answers[i].SendRaised?;
      i := i + 1;
    }
    AttemptedStays(answers, i, |batch|, raised);
    if raised || reportRaises {
      ghost var resolved := db.View();
      ClearPending(db, k, now);
      TakenTwice(before.pending, k);
    }
  }

  lemma {:induction false} AttemptedStays(answers: seq<Delivery>, i: nat, n: nat, raised: bool)
    requires i <= n && Attempted(answers, i) == i
    requires raised ==> 0 < i <= |answers| && answers[i - 1].SendRaised?
    requires !raised ==> i == n
    ensures Attempted(answers, n) == i
  {
    if i < n {
      AttemptedStays(answers, i, n - 1, raised);
    }
  }

  // ------------------------------------------------------------------ a comment

  datatype Handled = Ignored | Queued | Forwarded(to: string) | CreationStarted | HandlerRaised

  /** What a comment meets: the row's conversation, else the linked one, else the one inferred from
      the Jira keys its resource mentions; and the database after looking. */
  function Existing(t: Tables, k: Key, issues: seq<string>, now: real): (Tables, Option<string>) {
    var (t', found) := t.Lookup(k, now);
    if Truthy(found) then (t', found)
    else if Truthy(t.GetLink(k)) || issues == [] then (t', t.GetLink(k))
    else Infer(t', issues, k, now)
  }

  /** The row comes first, then the link, then the first Jira key that leads anywhere; only expiry and
      inference change tables. */
  lemma ExistingPrecedence(t: Tables, k: Key, issues: seq<string>, now: real)
    ensures var (t', existing) := Existing(t, k, issues, now);
            var (looked, row) := t.Lookup(k, now);
            if row != None && row != Some("") then existing == row && t' == looked
            else if k in t.links && t.links[k] != "" then existing == Some(t.links[k]) && t' == looked
            else if issues == [] then (existing == None || existing == Some("")) && t' == looked
            else (t', existing) == Infer(looked, issues, k, now)
  {
  }

  method FindExisting(db: Database, k: Key, issues: seq<string>, now: real) returns (existing: Option<string>)
    modifies db
    ensures (db.View(), existing) == Existing(old(db.View()), k, issues, now)
  {
    existing := db.LookupConversation(k, now);
    if !Truthy(existing) {
      existing := if k in db.links then Some(db.links[k]) else None;
    }
    if !Truthy(existing) && issues != [] {
      existing := InferConversation(db, issues, k, now);
    }
  }

  /** How a comment ends: ignored without mention and conversation, queued behind a marker, forwarded,
      ended with nothing stored by a send or status comment that raises, or starting a creation. */
  predicate HandledAs(before: Tables, k: Key, text: string, mention: bool, issues: seq<string>,
                      forwarding: Delivery, posted: Delivery, now: real, after: Tables, handled: Handled)
  {
    var (t, existing) := Existing(before, k, issues, now);
    var found := existing != None && existing != Some("");
    if !found && !mention then handled == Ignored && after == t
    else if existing == Some(PENDING) then handled == Queued && after == t.QueueMessage(k, text)
    else if found && forwarding.Delivered? then handled == Forwarded(existing.value) && after == t
    else if (found && forwarding.SendRaised?) || posted.SendRaised? then handled == HandlerRaised && after == t
    else handled == CreationStarted && after == t.StoreConversation(k, PENDING, now)
  }

  /** Queue behind a marker, forward to a conversation, or start creating one; `forwarding` and
      `posted` are what the send and the status comment answer. */
  method HandleComment(db: Database, k: Key, text: string, mention: bool, issues: seq<string>,
                       forwarding: Delivery, posted: Delivery, now: real)
    returns (handled: Handled)
    modifies db
    ensures HandledAs(old(db.View()), k, text, mention, issues, forwarding, posted, now, db.View(), handled)
  {
    var existing := FindExisting(db, k, issues, now);
    if !mention && !Truthy(existing) {
      return Ignored;
    }
    if existing == Some(PENDING) {
      db.QueueMessage(k, text);
      return Queued;
    }
    if Truthy(existing) {
      match forwarding
      case Delivered => return Forwarded(existing.value);
      case SendRaised => return HandlerRaised;
      case Refused =>
    }
    if posted.SendRaised? {
      return HandlerRaised;
    }
    db.StoreConversation(k, PENDING, now);
    return CreationStarted;
  }
}
