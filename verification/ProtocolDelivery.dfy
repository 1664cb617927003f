/** No queued message is lost, and none is delivered twice, in any interleaving. */
module ProtocolDelivery {
  import opened Tables
  import opened Protocol
  import opened ProtocolSafety

  // ------------------------------------------------------------------ message ledger

  /** Everything ever removed from the key's queue, in removal order. */
  function Taken(log: seq<Batch>, k: Key): seq<Message> {
    if log == [] then []
    else Taken(log[..|log| - 1], k) + (if log[|log| - 1].key == k then log[|log| - 1].msgs else [])
  }

  lemma TakenAppend(log: seq<Batch>, b: Batch, k: Key)
    ensures Taken(log + [b], k) == Taken(log, k) + (if b.key == k then b.msgs else [])
  {
    assert (log + [b])[..|log|] == log;
  }

  /** Conservation: the batches handed out for a key, in order, followed by what is still queued,
      are exactly the messages ever queued for the key, in queue order. */
  predicate LedgerAt(s: State, k: Key) {
    && Taken(s.log, k) + Of(s.tables.pending, k) == Of(s.issued, k)
    && s.tables.nextId == |s.issued|
    && forall i | 0 <= i < |s.issued| :: s.issued[i].id == i
  }

  lemma StepKeepsLedger(s: State, a: Action, k: Key)
    requires Enabled(s, a) && LedgerAt(s, k)
    ensures LedgerAt(Apply(s, a), k)
  {
    AppliedQueue(s, a);
    if a.Run? {
      var p := s.procs[a.i];
      QueueEffect(s, a.i);
      if p.pc.Queueing? {
        QueueingKeepsLedger(s, Apply(s, a), Message(s.tables.nextId, p.key, p.text), k);
      } else if DrainOf(s, a.i).Some? {
        DrainingKeepsLedger(s, Apply(s, a), DrainOf(s, a.i).value, k);
      }
    }
  }

  lemma QueueingKeepsLedger(s: State, s': State, m: Message, k: Key)
    requires QueuedOne(s, s', m) && LedgerAt(s, k)
    ensures LedgerAt(s', k)
  {
    OfAppend(s.tables.pending, m, k);
    OfAppend(s.issued, m, k);
  }

  /** Moving a key's queue to the end of what was taken changes nothing in the sum. */
  lemma DrainedSum(pending: seq<Message>, log: seq<Batch>, b: Batch, k: Key)
    requires b.msgs == Of(pending, b.key)
    ensures Taken(log + [b], k) + Of(Without(pending, b.key), k) == Taken(log, k) + Of(pending, k)
  {
    OfWithout(pending, b.key, k);
    TakenAppend(log, b, k);
  }

  lemma DrainingKeepsLedger(s: State, s': State, b: Batch, k: Key)
    requires Drained(s, s', b) && b.msgs == Of(s.tables.pending, b.key) && LedgerAt(s, k)
    ensures LedgerAt(s', k)
  {
    DrainedSum(s.tables.pending, s.log, b, k);
  }

  /** The ledger balances for every key in every reachable state. */
  lemma {:induction false} LedgerBalances(s: State, actions: seq<Action>, k: Key)
    requires Initial(s) && IsRun(s, actions)
    ensures LedgerAt(After(s, actions), k)
  {
    if actions != [] {
      var front := actions[..|actions| - 1];
      LedgerBalances(s, front, k);
      StepKeepsLedger(After(s, front), actions[|actions| - 1], k);
    }
  }

  lemma {:induction false} OfIsSorted(ms: seq<Message>, k: Key)
    requires forall i | 0 <= i < |ms| :: ms[i].id == i
    ensures forall i, j | 0 <= i < j < |Of(ms, k)| :: Of(ms, k)[i].id < Of(ms, k)[j].id
    ensures forall m :: m in Of(ms, k) <==> m in ms && m.key == k
  {
    if ms != [] {
      var front, last := ms[..|ms| - 1], ms[|ms| - 1];
      OfIsSorted(front, k);
      assert ms == front + [last];
    }
  }

  /** Exactly once, and first in first out: every message ever queued for a key is in one place of
      the key's batches and queue, no other message is, and the order is the queueing order. */
  lemma EachMessageOnce(s: State, actions: seq<Action>, k: Key)
    requires Initial(s) && IsRun(s, actions)
    ensures var end := After(s, actions);
            var all := Taken(end.log, k) + Of(end.tables.pending, k);
            && (forall i, j | 0 <= i < j < |all| :: all[i].id < all[j].id)
            && (forall m :: m in all <==> m in end.issued && m.key == k)
  {
    LedgerBalances(s, actions, k);
    OfIsSorted(After(s, actions).issued, k);
  }

  // ------------------------------------------------------------------ delivery

  /** The process has sent, in order, a part of one batch drained for its key and into its hands. */
  predicate SentFrom(p: Process, i: nat, b: Batch) {
    b.key == p.key && b.fate.Flushed? && b.fate.task == i && p.sent <= b.msgs
  }

  /** A flushing process has sent and has yet to send, in order, exactly one batch drained for its
      key into its conversation; a process that finished flushing has sent all of it; and whatever
      any process has sent is from such a batch of its own. */
  predicate DeliveringAt(s: State, i: nat) {
    i < |s.procs| ==>
      var p := s.procs[i];
      && (p.pc.Flushing? ==> Batch(p.key, Flushed(i, p.pc.conv), p.sent + p.pc.rest) in s.log)
      && (p.pc.Reporting? ==> Batch(p.key, Flushed(i, p.pc.resolved), p.sent) in s.log)
      && (p.sent != [] ==> exists b :: b in s.log && SentFrom(p, i, b))
  }

  lemma LogOnlyGrows(s: State, a: Action)
    requires Enabled(s, a)
    ensures s.log <= Apply(s, a).log
  {
    AppliedQueue(s, a);
    if a.Run? {
      QueueEffect(s, a.i);
    }
  }

  lemma DrainingDelivers(s: State, a: Action)
    requires Enabled(s, a) && a.Run? && s.procs[a.i].pc.Draining?
    ensures DeliveringAt(Apply(s, a), a.i)
  {
    var p := s.procs[a.i];
    AppliedQueue(s, a);
    QueueEffect(s, a.i);
    assert [] + Of(s.tables.pending, p.key) == Of(s.tables.pending, p.key);
  }

  lemma FlushingDelivers(s: State, a: Action)
    requires Enabled(s, a) && a.Run? && s.procs[a.i].pc.Flushing? && DeliveringAt(s, a.i)
    ensures DeliveringAt(Apply(s, a), a.i)
  {
    LogOnlyGrows(s, a);
    var p, p' := s.procs[a.i], Apply(s, a).procs[a.i];
    var b := Batch(p.key, Flushed(a.i, p.pc.conv), p.sent + p.pc.rest);
    assert b in Apply(s, a).log;
    if p.pc.rest == [] {
      assert p.sent + p.pc.rest == p.sent;
    } else {
      assert (p.sent + [p.pc.rest[0]]) + p.pc.rest[1..] == p.sent + p.pc.rest;
    }
    assert SentFrom(p', a.i, b);
  }

  lemma StepKeepsDelivery(s: State, a: Action, i: nat)
    requires Enabled(s, a) && DeliveringAt(s, i)
    ensures DeliveringAt(Apply(s, a), i)
  {
    LogOnlyGrows(s, a);
    if a.Run? && a.i == i && s.procs[i].pc.Draining? {
      DrainingDelivers(s, a);
    } else if a.Run? && a.i == i && s.procs[i].pc.Flushing? {
      FlushingDelivers(s, a);
    } else if i < |s.procs| && s.procs[i].sent != [] {
      var b :| b in s.log && SentFrom(s.procs[i], i, b);
      assert b in Apply(s, a).log && SentFrom(Apply(s, a).procs[i], i, b);
    }
  }

  /** Delivery, over every interleaving: no flush skips, reorders or duplicates a message. */
  lemma {:induction false} EveryFlushDelivers(s: State, actions: seq<Action>, i: nat)
    requires Initial(s) && IsRun(s, actions)
    ensures DeliveringAt(After(s, actions), i)
  {
    if actions != [] {
      var front := actions[..|actions| - 1];
      EveryFlushDelivers(s, front, i);
      StepKeepsDelivery(After(s, front), actions[|actions| - 1], i);
    }
  }

  // ------------------------------------------------------------------ never twice

  predicate Increasing(ms: seq<Message>) {
    forall i, j | 0 <= i < j < |ms| :: ms[i].id < ms[j].id
  }

  lemma {:induction false} InTaken(log: seq<Batch>, x: nat, m: Message)
    requires x < |log| && m in log[x].msgs
    ensures m in Taken(log, log[x].key)
  {
    if x < |log| - 1 {
      InTaken(log[..|log| - 1], x, m);
    }
  }

  /** Where a key's batches have increasing ids, each batch has, and no two share a message. */
  lemma {:induction false} BatchesApart(log: seq<Batch>, k: Key, x: nat, y: nat)
    requires Increasing(Taken(log, k)) && x < y < |log| && log[x].key == k == log[y].key
    ensures Increasing(log[y].msgs)
    ensures forall m :: m in log[x].msgs ==> m !in log[y].msgs
  {
    var front, last := log[..|log| - 1], log[|log| - 1];
    var before := Taken(front, k);
    assert before == Taken(log, k)[..|before|];
    if y < |log| - 1 {
      BatchesApart(front, k, x, y);
    } else {
      assert last.msgs == Taken(log, k)[|before|..];
      forall m | m in log[x].msgs ensures m !in last.msgs {
        InTaken(front, x, m);
      }
    }
  }

  lemma {:induction false} BatchIncreasing(log: seq<Batch>, x: nat)
    requires x < |log| && Increasing(Taken(log, log[x].key))
    ensures Increasing(log[x].msgs)
  {
    var front := log[..|log| - 1];
    var before := Taken(front, log[x].key);
    assert before == Taken(log, log[x].key)[..|before|];
    if x < |log| - 1 {
      BatchIncreasing(front, x);
    } else {
      assert log[x].msgs == Taken(log, log[x].key)[|before|..];
    }
  }

  /** In a reachable state a key's batches have increasing ids and hold messages of that key only. */
  lemma BatchesInOrder(s: State, actions: seq<Action>, k: Key)
    requires Initial(s) && IsRun(s, actions)
    ensures Increasing(Taken(After(s, actions).log, k))
    ensures forall m :: m in Taken(After(s, actions).log, k) ==> m.key == k
  {
    EachMessageOnce(s, actions, k);
    var end := After(s, actions);
    var taken, all := Taken(end.log, k), Taken(end.log, k) + Of(end.tables.pending, k);
    assert taken == all[..|taken|];
    forall m | m in taken ensures m.key == k {
      assert m in all;
    }
  }

  /** All a process has sent and is about to send. */
  function Sending(p: Process): seq<Message> {
    p.sent + (if p.pc.Flushing? then p.pc.rest else [])
  }

  /** It comes from one batch of the process's own. */
  lemma SendingBatch(s: State, actions: seq<Action>, i: nat) returns (x: nat)
    requires Initial(s) && IsRun(s, actions)
    requires i < |After(s, actions).procs| && Sending(After(s, actions).procs[i]) != []
    ensures var end := After(s, actions);
            && x < |end.log| && end.log[x].key == end.procs[i].key
            && end.log[x].fate.Flushed? && end.log[x].fate.task == i
            && Sending(end.procs[i]) <= end.log[x].msgs
  {
    EveryFlushDelivers(s, actions, i);
    var end := After(s, actions);
    var p := end.procs[i];
    if p.pc.Flushing? {
      x :| 0 <= x < |end.log| && end.log[x] == Batch(p.key, Flushed(i, p.pc.conv), p.sent + p.pc.rest);
    } else {
      assert Sending(p) == p.sent;
      var b :| b in end.log && SentFrom(p, i, b);
      x :| 0 <= x < |end.log| && end.log[x] == b;
    }
  }

  /** In every reachable state, no process sends a message twice or out of order ... */
  lemma SentInOrder(s: State, actions: seq<Action>, i: nat)
    requires Initial(s) && IsRun(s, actions) && i < |After(s, actions).procs|
    ensures Increasing(Sending(After(s, actions).procs[i]))
  {
    if Sending(After(s, actions).procs[i]) != [] {
      var x := SendingBatch(s, actions, i);
      BatchesInOrder(s, actions, After(s, actions).procs[i].key);
      BatchIncreasing(After(s, actions).log, x);
    }
  }

  /** ... and no two processes, on whatever keys, ever send the same message. */
  lemma NeverSentTwice(s: State, actions: seq<Action>, i: nat, j: nat, m: Message)
    requires Initial(s) && IsRun(s, actions)
    requires i < |After(s, actions).procs| && j < |After(s, actions).procs| && i != j
    requires m in Sending(After(s, actions).procs[i])
    ensures m !in Sending(After(s, actions).procs[j])
  {
    var end := After(s, actions);
    if m in Sending(end.procs[j]) {
      var x := SendingBatch(s, actions, i);
      var y := SendingBatch(s, actions, j);
      var k, l := end.procs[i].key, end.procs[j].key;
      BatchesInOrder(s, actions, k);
      BatchesInOrder(s, actions, l);
      InTaken(end.log, x, m);
      InTaken(end.log, y, m);
      BatchesApart(end.log, k, if x < y then x else y, if x < y then y else x);
    }
  }
}
