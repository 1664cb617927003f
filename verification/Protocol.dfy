/** The pending-conversation protocol as an interleaving machine.

    Every webhook handler is a process with a program counter; when it spawns the background
    creation task, the same process continues as that task.  Each step is one database
    transaction or one awaited external call, so any two processes interleave at every await.
    `owner`, `issued` and `log` are history: who last stored a marker, every message ever queued,
    and every batch ever removed from the queue. */
module Protocol {
  import opened Options
  import opened Tables

  const MAX_POLLS := 310

  datatype Kind =
    // a comment: look up, then queue, forward or create
    | Comment(mention: bool, issues: seq<string>)
    // the 'openhands' label: mark first, then create; `issues` are the Jira keys a GitLab
    // resource mentions, none on GitHub
    | Label(issues: seq<string>)

  datatype Pc =
    // handler
    | LookingUp
    | LookingUpLink
    | InferringRow(issue: string, more: seq<string>)
    | InferringTicket(issue: string, more: seq<string>)
    | InferringLink(issue: string, more: seq<string>)
    | Linking(inferred: string)
    | Queueing
    | Forwarding(to: string)
    | Posting
    | Marking
    | Spawning
    // background creation
    | Creating
    | Polling(left: nat)
    | Storing(created: string)
    | Draining(into: string)
    | Flushing(conv: string, rest: seq<Message>)
    | Reporting(resolved: string)
    // clearing; `handled` when already inside the exception handler
    | ClearLookup(handled: bool)
    | ClearRow(handled: bool)
    | Discarding(handled: bool)
    | ReportingError
    // ended
    | Finished
    | Aborted                  // the handler raised before spawning

  /** `sent` is history: the messages of its batch the process has attempted to send. */
  datatype Process = Process(key: Key, kind: Kind, text: string, noted: bool, sent: seq<Message>, pc: Pc)

  /** `task` is the process that flushes the batch. */
  datatype Fate = Flushed(task: nat, conv: string) | Discarded | Expired

  datatype Batch = Batch(key: Key, fate: Fate, msgs: seq<Message>)

  datatype State = State(
    tables: Tables,
    procs: seq<Process>,
    now: real,
    owner: map<Key, nat>,
    issued: seq<Message>,
    log: seq<Batch>)
  {
    /** Remove the key's queue, recording where the batch went. */
    function Take(k: Key, fate: Fate): State {
      this.(tables := tables.TakePending(k).0, log := log + [Batch(k, fate, Of(tables.pending, k))])
    }

    /** One conversation lookup; a stale marker expires together with its queue. */
    function LookUp(k: Key): State {
      this.(tables := tables.Lookup(k, now).0,
            log := if tables.Stale(k, now) then log + [Batch(k, Expired, Of(tables.pending, k))] else log)
    }
  }

  /** What the outside world answers to the awaited call. */
  datatype Outcome = Succeeds | Fails | Raises | Ready(conv: string)

  /** The answers that can occur.  Database transactions succeed; the comment and message clients
      may raise; the start task may become ready, be refused, stay unready, or time out. */
  predicate Allowed(p: Process, o: Outcome) {
    match p.pc
    case Forwarding(_) => !o.Ready?
    case Posting => !o.Ready?
    case Creating => !o.Ready?
    case Polling(left) =>
      if left == 0 then o.Fails?
      else o.Ready? ==> o.conv != "" && o.conv != PENDING
    case Flushing(_, rest) => if rest == [] then o.Succeeds? else !o.Ready?
    case Reporting(_) => o.Succeeds? || (o.Raises? && p.noted)
    case ReportingError => o.Succeeds? || (o.Raises? && p.noted)
    case Finished => false
    case Aborted => false
    case _ => o.Succeeds?
  }

  /** What a handler does with the conversation it found; a label creates one all the same. */
  function Decide(p: Process, existing: Option<string>): Pc {
    if p.kind.Label? then Marking
    else if !Truthy(existing) then
      if p.kind.mention then Posting else Finished
    else if existing.value == PENDING then Queueing
    else Forwarding(existing.value)
  }

  /** Infer the conversation from the next Jira key, or decide without one. */
  function TryIssues(p: Process, issues: seq<string>): Pc {
    if issues == [] then Decide(p, None) else InferringRow(issues[0], issues[1..])
  }

  /** What the step of process `i` does to the shared state; steps that only talk to the outside do nothing. */
  function Transact(s: State, i: nat): State
    requires i < |s.procs|
  {
    var p := s.procs[i];
    match p.pc
    case LookingUp => s.LookUp(p.key)
    case ClearLookup(_) => s.LookUp(p.key)
    case InferringRow(issue, _) => s.LookUp(IssueKey(issue))
    case Linking(conv) => s.(tables := s.tables.LinkResource(conv, p.key).0)
    case Queueing =>
      s.(tables := s.tables.QueueMessage(p.key, p.text),
         issued := s.issued + [Message(s.tables.nextId, p.key, p.text)])
    case Marking =>
      s.(tables := s.tables.StoreConversation(p.key, PENDING, s.now), owner := s.owner[p.key := i])
    case Storing(conv) => s.(tables := s.tables.StoreConversation(p.key, conv, s.now))
    case Draining(conv) => s.Take(p.key, Flushed(i, conv))
    case ClearRow(_) => s.(tables := s.tables.ClearConversation(p.key))
    case Discarding(_) => s.Take(p.key, Discarded)
    case _ => s
  }

  /** Where the process continues, given what its transaction read and what the outside answered. */
  function NextPc(t: Tables, now: real, p: Process, o: Outcome): Pc
    requires Allowed(p, o)
  {
    match p.pc
    case LookingUp =>
      var found := t.Lookup(p.key, now).1;
      if Truthy(found) then Decide(p, found) else LookingUpLink
    case LookingUpLink =>
      var found := t.GetLink(p.key);
      if Truthy(found) then Decide(p, found) else TryIssues(p, p.kind.issues)
    case InferringRow(issue, more) =>
      var found := t.Lookup(IssueKey(issue), now).1;
      if Truthy(found) then Linking(found.value) else InferringTicket(issue, more)
    case InferringTicket(issue, more) =>
      var found := t.GetTicket(issue);
      if Truthy(found) then Linking(found.value) else InferringLink(issue, more)
    case InferringLink(issue, more) =>
      var found := t.GetLink(IssueKey(issue));
      if Truthy(found) then Linking(found.value) else TryIssues(p, more)
    case Linking(conv) => Decide(p, Some(conv))
    case Queueing => Finished
    case Forwarding(_) => if o.Fails? then Posting else Finished
    case Posting => if o.Raises? then Aborted else if p.kind.Label? then Spawning else Marking
    case Marking => if p.kind.Label? then Posting else Spawning
    case Spawning => Creating
    case Creating => if o.Succeeds? then Polling(MAX_POLLS) else ClearLookup(o.Raises?)
    case Polling(left) =>
      if o.Ready? then Storing(o.conv)
      else if o.Succeeds? then Polling(left - 1)
      else ClearLookup(o.Raises?)
    case Storing(conv) => Draining(conv)
    case Draining(conv) => Flushing(conv, Of(t.pending, p.key))
    case Flushing(conv, rest) =>
      if rest == [] then Reporting(conv)
      else if o.Raises? then ClearLookup(true)
      else Flushing(conv, rest[1..])
    case Reporting(_) => if o.Raises? then ClearLookup(true) else Finished
    case ClearLookup(handled) =>
      if t.Lookup(p.key, now).1 == Some(PENDING) then ClearRow(handled) else Discarding(handled)
    case ClearRow(handled) => Discarding(handled)
    case Discarding(handled) => if handled then Finished else ReportingError
    case ReportingError => if o.Raises? then ClearLookup(true) else Finished
  }

  function SentAfter(p: Process): seq<Message> {
    match p.pc
    case Draining(_) => []
    case Flushing(_, rest) => if rest == [] then p.sent else p.sent + [rest[0]]
    case _ => p.sent
  }

  /** One step of process `i`. */
  function Advance(s: State, i: nat, o: Outcome): State
    requires i < |s.procs| && Allowed(s.procs[i], o)
  {
    var p := s.procs[i];
    Transact(s, i).(procs := s.procs[i := p.(
      noted := if p.pc.Posting? then o.Succeeds? else p.noted,
      sent := SentAfter(p),
      pc := NextPc(s.tables, s.now, p, o))])
  }

  datatype Action =
    | Arrive(key: Key, kind: Kind, text: string)  // a webhook starts a handler
    | Run(i: nat, o: Outcome)                     // process i takes its next step
    | Link(target: Key, conversation: string)     // another service links a resource
    | Ticket(issue: string, ticketed: string)     // ... or a Jira ticket
    | Tick(dt: real)                              // time passes

  predicate Enabled(s: State, a: Action) {
    match a
    case Run(i, o) => i < |s.procs| && Allowed(s.procs[i], o)
    case Tick(dt) => dt >= 0.0
    case _ => true
  }

  function Apply(s: State, a: Action): State
    requires Enabled(s, a)
  {
    match a
    case Arrive(k, kind, text) =>
      var p := Process(k, kind, text, false, [], LookingUp);
      s.(procs := s.procs + [if kind.Label? then p.(pc := TryIssues(p, kind.issues)) else p])
    case Run(i, o) => Advance(s, i, o)
    case Link(k, conversation) => s.(tables := s.tables.LinkResource(conversation, k).0)
    case Ticket(issue, conversation) => s.(tables := s.tables.InsertTicket(conversation, issue).0)
    case Tick(dt) => s.(now := s.now + dt)
  }

  /** A run: every action is enabled when its turn comes. */
  predicate IsRun(s: State, actions: seq<Action>)
    decreases |actions|, 0
  {
    actions == [] ||
    var front := actions[..|actions| - 1];
    IsRun(s, front) && Enabled(After(s, front), actions[|actions| - 1])
  }

  function After(s: State, actions: seq<Action>): State
    requires IsRun(s, actions)
    decreases |actions|, 1
  {
    if actions == [] then s
    else Apply(After(s, actions[..|actions| - 1]), actions[|actions| - 1])
  }

  /** A service just started: no processes, no marker, an empty queue, and whatever conversations
      and links were recorded before. */
  ghost predicate Initial(s: State) {
    && s.procs == [] && s.issued == [] && s.log == [] && s.owner == map[]
    && s.tables.pending == [] && s.tables.nextId == 0
    && forall k :: !s.tables.IsPending(k)
  }

  lemma {:induction false} PrefixIsRun(s: State, actions: seq<Action>, j: nat)
    requires IsRun(s, actions) && j <= |actions|
    ensures IsRun(s, actions[..j])
  {
    if j < |actions| {
      PrefixIsRun(s, actions[..|actions| - 1], j);
      assert actions[..|actions| - 1][..j] == actions[..j];
    } else {
      assert actions[..j] == actions;
    }
  }

  /** The state before action `j` of a run (after the whole run when `j` is its length). */
  function At(s: State, actions: seq<Action>, j: nat): State
    requires IsRun(s, actions) && j <= |actions|
  {
    PrefixIsRun(s, actions, j);
    After(s, actions[..j])
  }

  lemma RunStep(s: State, actions: seq<Action>, j: nat)
    requires IsRun(s, actions) && j < |actions|
    ensures Enabled(At(s, actions, j), actions[j])
    ensures At(s, actions, j + 1) == Apply(At(s, actions, j), actions[j])
  {
    PrefixIsRun(s, actions, j);
    PrefixIsRun(s, actions, j + 1);
    var next := actions[..j + 1];
    assert next[..|next| - 1] == actions[..j] && next[|next| - 1] == actions[j];
    assert After(s, next) == Apply(After(s, actions[..j]), actions[j]);
  }
}
