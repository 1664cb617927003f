/** Write-once links, and inferring a merge request's conversation from the Jira keys it mentions. */
module Inference {
  import opened Options
  import opened Tables

  // ------------------------------------------------------------------ links are write-once

  datatype LinkCall = LinkCall(conversation: string, key: Key)

  function LinkAll(t: Tables, calls: seq<LinkCall>): Tables {
    if calls == [] then t
    else
      var last := calls[|calls| - 1];
      LinkAll(t, calls[..|calls| - 1]).LinkResource(last.conversation, last.key).0
  }

  /** The answer of call `i` in a series of calls. */
  function Answer(t: Tables, calls: seq<LinkCall>, i: nat): bool
    requires i < |calls|
  {
    LinkAll(t, calls[..i]).LinkResource(calls[i].conversation, calls[i].key).1
  }

  predicate Mentioned(calls: seq<LinkCall>, k: Key) {
    exists i | 0 <= i < |calls| :: calls[i].key == k
  }

  lemma {:induction false} LinkedIff(t: Tables, calls: seq<LinkCall>, k: Key)
    ensures k in LinkAll(t, calls).links <==> k in t.links || Mentioned(calls, k)
  {
    if calls != [] {
      var front, last := calls[..|calls| - 1], calls[|calls| - 1];
      LinkedIff(t, front, k);
      if i :| 0 <= i < |calls| && calls[i].key == k {
        assert i == |front| || front[i].key == k;
      }
      if i :| 0 <= i < |front| && front[i].key == k {
        assert calls[i].key == k;
      }
      assert last.key == k ==> calls[|front|].key == k;
    }
  }

  /** Over any series of calls, linking answers true exactly for the first call on a resource that
      was unlinked before: at most once per resource. */
  lemma AnswersTrueIff(t: Tables, calls: seq<LinkCall>, i: nat)
    requires i < |calls|
    ensures Answer(t, calls, i) <==>
              calls[i].key !in t.links && forall j | 0 <= j < i :: calls[j].key != calls[i].key
  {
    LinkedIff(t, calls[..i], calls[i].key);
    if j :| 0 <= j < i && calls[j].key == calls[i].key {
      assert calls[..i][j].key == calls[i].key;
    }
  }

  /** And the resource keeps the conversation of that call for good. */
  lemma {:induction false} FirstLinkStays(t: Tables, calls: seq<LinkCall>, i: nat)
    requires i < |calls| && Answer(t, calls, i)
    ensures LinkAll(t, calls).GetLink(calls[i].key) == Some(calls[i].conversation)
  {
    var front, last := calls[..|calls| - 1], calls[|calls| - 1];
    if i == |front| {
      assert calls[..i] == front;
    } else {
      assert front[..i] == calls[..i];
      FirstLinkStays(t, front, i);
    }
  }

  // ------------------------------------------------------------------ inference

  /** The conversation a Jira key leads to: its mapping, else its ticket, else its link. */
  function Match(t: Tables, issue: string, now: real): Option<string> {
    var k := IssueKey(issue);
    Or(Or(t.Lookup(k, now).1, t.GetTicket(issue)), t.GetLink(k))
  }

  /** The row's conversation comes before the ticket's, and the ticket's before the link's; an empty one
      counts as none. */
  lemma MatchPrecedence(t: Tables, issue: string, now: real)
    ensures var k := IssueKey(issue);
            var row, found := t.Lookup(k, now).1, Match(t, issue, now);
            if row != None && row != Some("") then found == row
            else if issue in t.tickets && t.tickets[issue] != "" then found == Some(t.tickets[issue])
            else if k in t.links then found == Some(t.links[k])
            else found == None
  {
  }

  /** Keys are tried in order; looking one up may expire its stale marker. */
  function Infer(t: Tables, issues: seq<string>, target: Key, now: real): (Tables, Option<string>)
    decreases |issues|
  {
    if issues == [] then (t, None)
    else
      var found := Match(t, issues[0], now);
      var t' := t.Lookup(IssueKey(issues[0]), now).0;
      if Truthy(found) then (t'.LinkResource(found.value, target).0, found)
      else Infer(t', issues[1..], target, now)
  }

  method InferConversation(db: Database, issues: seq<string>, target: Key, now: real) returns (found: Option<string>)
    modifies db
    ensures (db.View(), found) == Infer(old(db.View()), issues, target, now)
  {
    for i := 0 to |issues|
      invariant Infer(old(db.View()), issues, target, now) == Infer(db.View(), issues[i..], target, now)
    {
      assert issues[i..][0] == issues[i] && issues[i..][1..] == issues[i + 1..];
      ghost var before := db.View();
      found := db.LookupConversation(IssueKey(issues[i]), now);
      if !Truthy(found) {
        found := if issues[i] in db.tickets then Some(db.tickets[issues[i]]) else None;
      }
      if !Truthy(found) {
        var k := IssueKey(issues[i]);
        found := if k in db.links then Some(db.links[k]) else None;
      }
      assert found == Match(before, issues[i], now);
      if Truthy(found) {
        var _ := db.LinkResource(found.value, target);
        return;
      }
    }
    return None;
  }

  /** Expiring one stale marker changes what no key leads to. */
  lemma LookupKeepsMatches(t: Tables, looked: string, issue: string, now: real)
    ensures Match(t.Lookup(IssueKey(looked), now).0, issue, now) == Match(t, issue, now)
    ensures t.Lookup(IssueKey(looked), now).0.links == t.links
  {
  }

  predicate FirstMatching(t: Tables, issues: seq<string>, now: real, i: nat) {
    && i < |issues| && Truthy(Match(t, issues[i], now))
    && forall j | 0 <= j < i :: !Truthy(Match(t, issues[j], now))
  }

  /** Inference answers with the first key that leads anywhere, and nothing when none does. */
  lemma {:induction false} InferIsFirstMatch(t: Tables, issues: seq<string>, target: Key, now: real)
    ensures forall i: nat | FirstMatching(t, issues, now, i) ::
              Infer(t, issues, target, now).1 == Match(t, issues[i], now)
    ensures Infer(t, issues, target, now).1 == None
       <==> forall i | 0 <= i < |issues| :: !Truthy(Match(t, issues[i], now))
    ensures Infer(t, issues, target, now).1.Some? ==> Truthy(Infer(t, issues, target, now).1)
    decreases |issues|
  {
    if issues != [] && !Truthy(Match(t, issues[0], now)) {
      var t' := t.Lookup(IssueKey(issues[0]), now).0;
      InferIsFirstMatch(t', issues[1..], target, now);
      forall i | 0 <= i < |issues| ensures Match(t', issues[i], now) == Match(t, issues[i], now) {
        LookupKeepsMatches(t, issues[0], issues[i], now);
      }
      forall i: nat | FirstMatching(t, issues, now, i) ensures i > 0 && FirstMatching(t', issues[1..], now, i - 1) {
      }
    }
  }

  /** Inference links at most its target, and only if it answers; on the way it expires at most stale
      markers of the keys it tries; rows are otherwise kept. */
  lemma {:induction false} InferChanges(t: Tables, issues: seq<string>, target: Key, now: real, other: Key)
    ensures var (t', found) := Infer(t, issues, target, now);
            && (other != target || found == None ==> t'.GetLink(other) == t.GetLink(other))
            && t'.tickets == t.tickets
            && (other in t'.conversations ==>
                  other in t.conversations && t'.conversations[other] == t.conversations[other])
            && (other in t.conversations && other !in t'.conversations ==>
                  t.Stale(other, now) && exists issue :: issue in issues && other == IssueKey(issue))
    decreases |issues|
  {
    if issues != [] {
      assert issues[0] in issues;
      if !Truthy(Match(t, issues[0], now)) {
        InferChanges(t.Lookup(IssueKey(issues[0]), now).0, issues[1..], target, now, other);
      }
    }
  }

  /** The inferred conversation is what every later link look-up returns, exactly when the resource
      was unlinked, or linked to that conversation, before; any other link wins over the inference. */
  lemma {:induction false} InferenceStableIff(t: Tables, issues: seq<string>, target: Key, now: real,
                                              later: seq<LinkCall>)
    requires Infer(t, issues, target, now).1.Some?
    ensures var (t', found) := Infer(t, issues, target, now);
            && (LinkAll(t', later).GetLink(target) == found <==> t.GetLink(target) in {None, found})
            && (t.GetLink(target).Some? ==> LinkAll(t', later).GetLink(target) == t.GetLink(target))
    decreases |issues|
  {
    var (t', found) := Infer(t, issues, target, now);
    if Truthy(Match(t, issues[0], now)) {
      LinkedStays(t', later, target);
    } else {
      InferenceStableIff(t.Lookup(IssueKey(issues[0]), now).0, issues[1..], target, now, later);
    }
  }

  lemma {:induction false} LinkedStays(t: Tables, calls: seq<LinkCall>, k: Key)
    requires k in t.links
    ensures LinkAll(t, calls).GetLink(k) == t.GetLink(k)
  {
    if calls != [] {
      LinkedStays(t, calls[..|calls| - 1], k);
    }
  }

  /** While a Jira conversation is still being created, inference links the marker itself, for good. */
  lemma PendingJiraLinksTheMarker(t: Tables, issue: string, target: Key, now: real, later: seq<LinkCall>)
    requires t.IsPending(IssueKey(issue)) && !t.Stale(IssueKey(issue), now)
    requires target !in t.links
    ensures LinkAll(Infer(t, [issue], target, now).0, later).GetLink(target) == Some(PENDING)
  {
    InferenceStableIff(t, [issue], target, now, later);
  }

  /** A ticket linked to the marker keeps it: linking the real conversation later is refused, and
      once the row is gone the ticket still leads to the marker. */
  lemma JiraTicketKeepsTheMarker(t: Tables, issue: string, conversation: string, now: real)
    requires issue !in t.tickets
    ensures var k := IssueKey(issue);
            var marked := t.StoreConversation(k, PENDING, now).LinkTicket(PENDING, issue).0;
            var resolved := marked.StoreConversation(k, conversation, now).LinkTicket(conversation, issue);
            && !resolved.1
            && resolved.0.GetTicket(issue) == Some(PENDING)
            && Match(resolved.0.ClearConversation(k), issue, now) == Some(PENDING)
  {
  }
}
