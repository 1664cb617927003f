# Verified model of the OpenHands services

The services turn webhooks into agent conversations, run every conversation in a Kubernetes
sandbox, report its status back where it was asked for, and clean up what is left over. This
project models the parts of them that hold state, and proves what they keep.

- **Pending conversations** (`Tables`, `Protocol*`, `Creation`, `Undisturbed`). A webhook handler stores the
  marker `__pending__`, a background task creates the conversation, and comments that arrive in
  between are queued and flushed. `Database` is the mutable store. `Protocol` lets any number of
  GitHub and GitLab handlers and tasks, on any keys, interleave at every await: each step is one
  transaction or one awaited call, cross-link inference from Jira keys included.
  `ProtocolSafety`, `ProtocolDelivery` and `ProtocolQuiescence` hold what every run keeps, what it
  delivers and how it ends; `Undisturbed` ties each of its processes, run alone, to the handlers
  and tasks on the store; `ProtocolFindings` holds runs in which the protocol as written falls short.
- **Sandboxes** (`Cluster`, `Sandbox`, `Lifecycle`, `SandboxLaws`). The sandbox service and the
  lifecycle service act on the same jobs, services, ingresses, accounts and claims; every API call
  may fail.
- **Configuration** (`Merge`). The recursive merge, its laws, and the folding of hook output.
- **Status monitor** (`Monitor`, `ResourceIds`). The in-memory cache, its reload from the database
  and the stream of updates it posts.
- **Loops with declarative meanings** (`JiraKeys`, `Inference`, `StatusFetch`, `Schedule`).

Code that changes state is modelled by methods that change state: each is proved equal to a
function from the old state to the new one, and the laws are proved about those functions, over
whole runs.

What the proofs show of the code where it differs from its own intent:

- A comment's look-up and its queueing are two transactions, so a message can be queued after the
  queue was flushed and then stays there (`LateQueueingStrands`). With one transaction this cannot
  happen (`FusedNeverStrands`), unless a link or an inference hands out the marker itself. While a
  Jira conversation is pending, GitLab's inference does so, and the comment stays queued under a
  resource nobody creates (`InferredMarkerStrands`, `PendingJiraLinksTheMarker`).
- The upsert does not refresh `created_at`: a marker written over a row older than 120 seconds is
  stale at once (`MarkerHonoured`).
- A failing creation deletes the row without looking again and can delete another task's resolved
  conversation (`FailureClearsTheOthersMapping`). With look-up and delete in one transaction it
  cannot (`FusedClearingKeepsMappings`); another creator may still store over it
  (`MappingLostIff`).
- A status comment that raises before the task is spawned leaves the marker to nobody until it
  times out (`RaisingPostOrphansMarker`), and nothing else does (`StepAbandonsIff`,
  `AlwaysLiveIff`).
- The merge is not associative (`NotAssociative`), so folding hook output first is not always the
  same as merging it fragment by fragment (`HookFusionIff`).
- The upsert keeps a row's last status. When a new conversation takes over the row of an earlier
  one, a restart before the next poll can suppress or add an update (`ReusedRowShows`); so it is
  for an owner with a slash, and in no other case (`TransparentIff`), as long as no post of a
  terminal status raises. Where one does, a restart shows as well (`RaisingPostShows`).
- A status reply that is not JSON raises out of the fetch and loses every chunk of the poll, not
  only its own (`FetchStatuses`).
- The sweep of old claims is documented to delete sandbox workspaces, but looks for a name that no
  workspace has (`OldWorkspacesAreKept`).

## Model

| member | source | states |
|---|---|---|
| `ProtocolSafety.MarkerAlwaysOwned` | services/webhooks/src/openhands_webhooks/handlers/github.py:187-335 | In every state reachable by any interleaving of any number of handlers and creation tasks, a pending marker belongs to the last process that stored it, and that process is still before its resolve or clear step, or raised between marking and spawning |
| `ProtocolSafety.StepKeepsOwner` | services/common/src/openhands_common/db.py:112-138 | One step of any process, a link, a new webhook or the passing of time keeps marker ownership, also when creators race on a key and clear each other's markers |
| `ProtocolSafety.StepAbandonsIff` | services/webhooks/src/openhands_webhooks/handlers/github.py:227-245 | One step leaves a marker without a live owner exactly when its label handler raises while posting the status comment |
| `ProtocolSafety.AlwaysLiveIff` | services/webhooks/src/openhands_webhooks/handlers/github.py:187-335 | Along a run every marker always has a live owner if and only if no owner ever raises between marking and spawning |
| `ProtocolSafety.NotLiveIsAbandoned` | services/webhooks/src/openhands_webhooks/handlers/github.py:227-245 | A marker without a live owner has stood uninterrupted since the step in which its handler raised |
| `ProtocolSafety.NeverStrandedIff` | services/webhooks/src/openhands_webhooks/handlers/github.py:154-170 | A run never leaves a message waiting for nobody if and only if every message was queued at a moment when its key had the marker or a process about to drain |
| `ProtocolSafety.StepStrandsIff` | services/webhooks/src/openhands_webhooks/handlers/github.py:165-170 | The only step that strands a message is queueing for a key with neither marker nor drainer, and that step always does |
| `ProtocolSafety.FusedNeverStrands` | services/webhooks/src/openhands_webhooks/handlers/github.py:154-170 | If look-up and queueing are one step, no reachable state has a stranded message, for every key to which the marker is neither linked nor inferred |
| `ProtocolSafety.PlainNeverStrands` | services/webhooks/src/openhands_webhooks/handlers/github.py:154-170 | The same from conditions on the inputs alone: webhooks of the key mention no Jira keys, as on GitHub, and nobody links the key to the marker |
| `ProtocolSafety.QueueingSawMarker` | services/webhooks/src/openhands_webhooks/handlers/gitlab.py:229-260 | A handler turns to queueing only when the row or the link showed the marker, or a Jira key led to it |
| `ProtocolSafety.MarkerHandedOver` | services/webhooks/src/openhands_webhooks/handlers/github.py:290-335 | A marker disappears only into the hands of a process about to drain the queue, or by expiry together with its queue |
| `ProtocolSafety.QueueEffect` | services/common/src/openhands_common/db.py:346-388 | Each transaction appends one fresh message, removes exactly one key's queue into one batch, or leaves queue and history alone |
| `ProtocolSafety.LinksOnlyGrow` | services/common/src/openhands_common/db.py:292-316 | Along every run, whatever a resource is linked to at one moment it is linked to at every later one |
| `ProtocolSafety.MappingLostIff` | services/webhooks/src/openhands_webhooks/handlers/github.py:331-335 | A step loses a resolved mapping exactly when a clearing task deletes the row or another creator of the key stores a marker or another conversation over it; it deletes the row exactly in the first case |
| `ProtocolSafety.ClearingSawMarker` | services/webhooks/src/openhands_webhooks/handlers/github.py:331-334 | A clearing task reaches its delete only from a look-up that saw the marker |
| `ProtocolSafety.FusedClearingKeepsMappings` | services/webhooks/src/openhands_webhooks/handlers/github.py:331-335 | If a clearing task looks up and deletes in one step, no run ever deletes a resolved mapping |
| `ProtocolSafety.StepForgets` | services/common/src/openhands_common/db.py:141-193 | No step of any process depends on the metadata of a row |
| `ProtocolSafety.RunsIgnoreMetadata` | services/common/src/openhands_common/db.py:141-193 | Whatever metadata is written, exactly the same runs are possible and they end in the same mappings, queues, links and processes |
| `ProtocolDelivery.LedgerBalances` | services/common/src/openhands_common/db.py:346-388 | For every key in every reachable state, the batches removed so far followed by what is still queued are exactly the messages ever queued, in queue order |
| `ProtocolDelivery.StepKeepsLedger` | services/common/src/openhands_common/db.py:87-107 | No step, timeout clearing included, loses, duplicates or reorders a queued message |
| `ProtocolDelivery.EachMessageOnce` | services/common/src/openhands_common/db.py:346-388 | Every queued message is in exactly one place among its key's batches and queue, in strictly increasing queue order, and nothing else is there |
| `ProtocolDelivery.EveryFlushDelivers` | services/webhooks/src/openhands_webhooks/handlers/github.py:314-319 | In every reachable state a flushing task has sent and has yet to send, in order, exactly one batch that it drained itself, for its key and into its conversation; whatever any process ever sent is the beginning of such a batch of its own |
| `ProtocolDelivery.StepKeepsDelivery` | services/webhooks/src/openhands_webhooks/handlers/github.py:314-319 | Steps of other processes do not disturb a flush, and its own steps skip, repeat and reorder nothing |
| `ProtocolDelivery.SentInOrder` | services/webhooks/src/openhands_webhooks/handlers/github.py:314-319 | In every reachable state no process sends a message twice or out of queue order |
| `ProtocolDelivery.NeverSentTwice` | services/webhooks/src/openhands_webhooks/handlers/github.py:314-319 | In every reachable state no two processes, on the same or different keys, have sent or are about to send the same message |
| `ProtocolQuiescence.ActionSpends` | services/webhooks/src/openhands_webhooks/openhands_client.py:78-123 | Every step of every handler or task lowers one number, made of the remaining polls, remaining program and undelivered messages; time and links leave it |
| `ProtocolQuiescence.EveryInterleavingTerminates` | services/webhooks/src/openhands_webhooks/handlers/github.py:290-335 | Once webhooks stop, every interleaving of what is left, cross-link inference included, ends within that many steps |
| `ProtocolQuiescence.StuckIffEnded` | services/webhooks/src/openhands_webhooks/handlers/github.py:290-335 | A process has no possible next step exactly when it has ended |
| `ProtocolQuiescence.MarkerAtRestIff` | services/webhooks/src/openhands_webhooks/handlers/github.py:290-335 | When all has ended, a marker remains if and only if its handler raised between marking and spawning and it has stood since |
| `ProtocolQuiescence.QuiescentIsClean` | services/webhooks/src/openhands_webhooks/handlers/github.py:290-335 | When all has ended, with fused queueing and the marker neither linked nor inferred, a queue is empty unless it waits behind such a marker |
| `ProtocolFindings.LateQueueingStrands` | services/webhooks/src/openhands_webhooks/handlers/github.py:154-170 | For every key, a run in which a comment queues after the task resolved and drained: all processes end, the message stays, and the key resolves to a real conversation |
| `ProtocolFindings.RaisingPostOrphansMarker` | services/webhooks/src/openhands_webhooks/handlers/github.py:227-232 | For every key, a run in which the label handler's status comment raises and the marker is left to nobody |
| `ProtocolFindings.InferredMarkerStrands` | services/webhooks/src/openhands_webhooks/handlers/gitlab.py:67-83 | For every GitLab resource and Jira key, a run in which a comment infers the marker of a Jira conversation still being created: the Jira task drains only its own key, all processes end, and the message and the link to the marker stay, although look-up and queueing are one step |
| `ProtocolFindings.FailureClearsTheOthersMapping` | services/webhooks/src/openhands_webhooks/handlers/github.py:331-335 | Two creators on one key: a run in which the failing one deletes the row the other has just resolved |
| `Creation.ClearPending` | services/webhooks/src/openhands_webhooks/handlers/github.py:331-335 | On the mutable store: a marker and the key's queue are gone, a resolved conversation stays |
| `Creation.ClearedLeaves` | services/webhooks/src/openhands_webhooks/handlers/github.py:331-335 | Clearing leaves no marker and no queue for the key, keeps a resolved row, and touches no other key's row or queue |
| `Creation.BackgroundCreate` | services/webhooks/src/openhands_webhooks/handlers/github.py:290-328 | On the mutable store: success leaves the resolved row and an empty queue and attempts exactly the queued texts in order, up to the first send that raises; any failure leaves no marker and no queue; later exceptions change no table |
| `Creation.ResolvedLeaves` | services/webhooks/src/openhands_webhooks/handlers/github.py:310-315 | Resolving makes the key lead to the conversation at any later time, empties its queue, and touches no other key |
| `Creation.Attempted` | services/webhooks/src/openhands_webhooks/handlers/github.py:316-319 | The number of sends attempted: all, or those up to and including the first that raises; refusals do not stop the flush |
| `Creation.HandleComment` | services/webhooks/src/openhands_webhooks/handlers/gitlab.py:192-296 | Ignored without mention and conversation, queued behind a marker found in the row, the link or through a Jira key, forwarded when accepted, ended with nothing stored when the send or the status comment raises, otherwise the marker is stored; in each case the whole new database |
| `Creation.ExistingPrecedence` | services/webhooks/src/openhands_webhooks/handlers/gitlab.py:229-244 | The row comes before the link, and the link before the Jira keys; only expiry and inference change tables |
| `Creation.FindExisting` | services/webhooks/src/openhands_webhooks/handlers/gitlab.py:229-244 | On the mutable store: the look-ups answer that conversation and leave those tables |
| `Undisturbed.CommentHandled` | services/webhooks/src/openhands_webhooks/handlers/gitlab.py:192-296 | A comment that arrives in the machine and is not disturbed ends, for every answer of the outside, in the case and the database of the store handler: ignored, queued, forwarded, raised with nothing stored, or going on as the creation task |
| `Undisturbed.CommentLooksUp` | services/webhooks/src/openhands_webhooks/handlers/gitlab.py:228-271 | After its look-ups a comment without conversation goes on exactly if it mentions the bot, queues behind a marker, and otherwise sends to the conversation found |
| `Undisturbed.LabelHandled` | services/webhooks/src/openhands_webhooks/handlers/gitlab.py:299-335 | A label handler infers and links first if Jira keys are mentioned, stores the marker whatever it finds, and goes on as the creation task unless its status comment raises |
| `Undisturbed.TaskHandled` | services/webhooks/src/openhands_webhooks/handlers/github.py:290-335 | An undisturbed creation task finishes, and for every answer of the outside leaves the tables and sends the texts of the store task: resolved and flushed up to a send that raises, or cleared |
| `Undisturbed.InferringAlone` | services/webhooks/src/openhands_webhooks/handlers/gitlab.py:67-83 | The machine's single look-ups of row, ticket and link, key by key, amount to the inference loop, for any number of keys |
| `Undisturbed.TryingAlone` | services/webhooks/src/openhands_webhooks/handlers/gitlab.py:70-82 | Trying one key looks up its row, ticket and link, links what the first of them leads to, and else goes on to the next key |
| `Undisturbed.PollsAlone` | services/webhooks/src/openhands_webhooks/openhands_client.py:87-123 | Undecided polls count down from 310 and change nothing |
| `Undisturbed.PollsRunOut` | services/webhooks/src/openhands_webhooks/openhands_client.py:87-123 | After 310 undecided polls only a failure is possible; before, every answer is |
| `Undisturbed.ClearsAlone` | services/webhooks/src/openhands_webhooks/handlers/github.py:331-335 | A failing task removes marker and queue, and reports its failure exactly if no exception brought it there |
| `Undisturbed.FlushesAlone` | services/webhooks/src/openhands_webhooks/handlers/github.py:314-319 | A flush sends the batch in order up to and including the first send that raises; a refused one does not stop it |
| `Undisturbed.ReachesIsRun` | services/webhooks/src/openhands_webhooks/handlers/github.py:290-335 | Every such undisturbed course is a run of the interleaving machine |
| `Tables.Database.LookupConversation` | services/common/src/openhands_common/db.py:62-109 | A fresh row is returned and nothing changes; a stale marker is deleted with its queue and no other, and nothing is returned |
| `Tables.LookupIff` | services/common/src/openhands_common/db.py:62-109 | A look-up answers a conversation exactly if the row holds it and is no marker inserted more than 120 seconds ago; such a marker goes with its queue, and nothing else changes |
| `Tables.Database.StoreConversation` | services/common/src/openhands_common/db.py:112-138 | Upsert: a new row gets the present time, an existing row only its conversation |
| `Tables.StoredRowIs` | services/common/src/openhands_common/db.py:128-136 | A new row has its conversation and time and no metadata or last status; an existing one keeps all but its conversation; no other row changes |
| `Tables.Database.TakePending` | services/common/src/openhands_common/db.py:360-388 | Returns the key's messages in id order and deletes exactly those |
| `Tables.Database.DeletePending` | services/common/src/openhands_common/db.py:96-102 | Deletes exactly the messages of one key, keeping the order of the rest |
| `Tables.Database.LinkResource` | services/common/src/openhands_common/db.py:292-316 | Inserts and answers true only for an unlinked resource; otherwise changes nothing |
| `Tables.Database.LinkTicket` | services/common/src/openhands_common/db.py:230-246 | Two transactions: an unlinked ticket is inserted, and only then its resource link; in the machine both are actions of their own |
| `Tables.TicketIsLinked` | services/common/src/openhands_common/db.py:230-246 | A new ticket leads to the conversation, and its issue too unless it was linked before; a known ticket changes neither |
| `Tables.MarkerHonoured` | services/common/src/openhands_common/db.py:83-107 | A marker is honoured exactly while its row was first inserted at most 120 seconds ago, since the upsert keeps the insertion time; otherwise row and queue are gone |
| `Tables.StoredIsFound` | services/common/src/openhands_common/db.py:112-138 | A real conversation, once stored, is found at any later time and its look-up changes nothing |
| `Tables.TakeDrains` | services/common/src/openhands_common/db.py:360-388 | Taking a key's messages empties that key's queue and leaves every other key's queue alone |
| `Tables.QueuedIsTaken` | services/common/src/openhands_common/db.py:346-388 | First in, first out: a queued message is the last of the next batch of its key, and in no other batch |
| `Tables.NoteMetadataIsBare` | services/common/src/openhands_common/db.py:141-159 | Storing note metadata changes no mapping, marker, insertion time, queue, link or ticket |
| `Tables.JiraCommentIsBare` | services/common/src/openhands_common/db.py:174-183 | The same for a Jira comment id |
| `Tables.SlackMetadataIsBare` | services/common/src/openhands_common/db.py:162-171 | The same for Slack metadata |
| `Tables.LastStatusIsBare` | services/common/src/openhands_common/db.py:186-193 | The same for the last status |
| `Tables.LookupIsBare` | services/common/src/openhands_common/db.py:62-109 | A look-up answers, expires and changes mappings independently of all metadata |
| `Tables.StoreIsBare` | services/common/src/openhands_common/db.py:112-138 | Storing and clearing a conversation change mappings independently of all metadata |
| `Tables.OfWithout` | services/common/src/openhands_common/db.py:96-102 | Deleting one key's messages leaves every other key's messages and their order |
| `Merge.DeepMerge` | pkgs/server/kubernetes_sandbox.py:139-147 | The loop over override entries, recursing into pairs of objects, computes the structural merge |
| `Merge.MergeByPath` | pkgs/server/kubernetes_sandbox.py:139-147 | What any path finds in a merge, from what it finds in base and override: the override's non-object wins, objects merge, and an override that ends early in a non-object hides the base |
| `Merge.MergeIdentity` | pkgs/server/kubernetes_sandbox.py:139-147 | The empty object is a left and right identity |
| `Merge.MergeTwice` | pkgs/server/kubernetes_sandbox.py:139-147 | Merging the same override a second time changes nothing |
| `Merge.AbsorbedIff` | pkgs/server/kubernetes_sandbox.py:139-147 | A merge returns the override unchanged exactly when the override says again everything the base says |
| `Merge.AssociativeIff` | pkgs/server/kubernetes_sandbox.py:139-147 | For any three values the merge is associative exactly when, wherever the middle replaces an object by a non-object, the last says again all the first said there |
| `Merge.NotAssociative` | pkgs/server/kubernetes_sandbox.py:139-147 | Three concrete configurations on which the merge is not associative |
| `Merge.NoFlipAssociable` | pkgs/server/kubernetes_sandbox.py:139-147 | A condition on the inputs alone, no path going object, non-object, object, makes the merge associative |
| `Merge.HookFusionIff` | pkgs/server/kubernetes_sandbox.py:547-554 | Merging the folded hook output into the base equals merging every fragment in turn, for every prefix of the fragments, exactly when each step may be reassociated |
| `Merge.HookFusion` | pkgs/server/kubernetes_sandbox.py:547-554 | Folding first and merging once equals merging each fragment in turn when no path flips between object and non-object |
| `Merge.SkippedHook` | pkgs/server/kubernetes_sandbox.py:129-135 | A hook that fails or prints a non-object, at any position, leaves the result of all hooks unchanged |
| `Merge.CountedHook` | pkgs/server/kubernetes_sandbox.py:132-136 | A hook that prints an object is merged over the result of those before it, and those after it are merged over that one by one |
| `Merge.LeafReaches` | pkgs/server/kubernetes_sandbox.py:112-136 | A value a hook prints at a path is in the result of all hooks, unless a later hook that counts says something at the path or on the way to it |
| `Merge.RunHooks` | pkgs/server/kubernetes_sandbox.py:112-136 | The hook loop returns that result for any hooks |
| `Merge.BuildInput` | pkgs/server/kubernetes_sandbox.py:526-554 | The renderer's input is the request, overridden by the template, overridden by the folded hook output, also when template or hooks are absent |
| `Monitor.PostsAreDeStuttered` | services/webhooks/src/openhands_webhooks/status_monitor.py:189-234 | For every stream of polled statuses with gaps and posts that may raise, the updates tried are exactly the arrived statuses without consecutive repeats, up to the terminal one that ends the tracking, all on one target |
| `Monitor.CalmEndsAtTerminal` | services/webhooks/src/openhands_webhooks/status_monitor.py:230-234 | Where no post of a terminal status raises, that is the first terminal status |
| `Monitor.UntilTerminalIs` | services/webhooks/src/openhands_webhooks/status_monitor.py:230-231 | The cut is a prefix of the arrived statuses up to and including the first terminal one, or all of them |
| `Monitor.UntilEndIs` | services/webhooks/src/openhands_webhooks/status_monitor.py:203-234 | With posts that may raise, the cut is just after the first arrival that ends the tracking |
| `Monitor.DeStutterSnoc` | services/webhooks/src/openhands_webhooks/status_monitor.py:203-206 | A status is kept exactly when it differs from the one before it |
| `Monitor.EndsOnTerminal` | services/webhooks/src/openhands_webhooks/status_monitor.py:46-46 | One quiet poll ends the tracking exactly on CLOSED, STOPPED, ERROR and FINISHED |
| `Monitor.UntrackedIffEnded` | services/webhooks/src/openhands_webhooks/status_monitor.py:203-234 | The conversation ends untracked exactly when a terminal status has arrived that repeats the one before it, or whose post does not raise |
| `Monitor.DeStutterHasNoRepeats` | services/webhooks/src/openhands_webhooks/status_monitor.py:204-206 | No posted status repeats the one before it, nor the first one the remembered status |
| `Monitor.RestartsAreTransparent` | services/webhooks/src/openhands_webhooks/status_monitor.py:152-234 | Restarts anywhere between polls change no posted update and no target, wherever cache and database agree at the start and no post of a terminal status raises |
| `Monitor.TransparentIff` | services/webhooks/src/openhands_webhooks/status_monitor.py:70-234 | For a conversation tracked on any platform, restarts are transparent in all such runs if and only if its row carried no status of an earlier conversation and, on GitHub, the owner has no slash |
| `Monitor.RestartShows` | services/webhooks/src/openhands_webhooks/status_monitor.py:152-186 | Otherwise some status makes the first poll after a restart post another update, or none |
| `Monitor.ReusedRowShows` | services/common/src/openhands_common/db.py:128-136 | The upsert keeps the last status, so a new conversation on the row of a polled earlier one is such a case |
| `Monitor.RaisingPostShows` | services/webhooks/src/openhands_webhooks/status_monitor.py:203-234 | Where the post of a terminal status raises, a restart right after shows too: the cache still tracks the conversation, the database does not |
| `Monitor.DisagreementShows` | services/webhooks/src/openhands_webhooks/status_monitor.py:152-234 | Whenever cache and reload disagree on a tracked conversation, some status of the next poll tells them apart |
| `Monitor.PostedIsAllPosts` | services/webhooks/src/openhands_webhooks/status_monitor.py:152-234 | The updates of such a run with restarts are those of its bare stream of polls |
| `Monitor.PollKeepsAgreementIff` | services/webhooks/src/openhands_webhooks/status_monitor.py:203-231 | A poll keeps cache and database in agreement exactly when no post of a terminal status raises |
| `Monitor.RestartKeepsAgreement` | services/webhooks/src/openhands_webhooks/status_monitor.py:152-186 | A reload of an empty cache keeps the agreement and loses no tracked conversation |
| `Monitor.TrackedAgreesIff` | services/webhooks/src/openhands_webhooks/status_monitor.py:70-122 | After a conversation is tracked on any of the four platforms, cache and database agree exactly when its row carries no earlier status and, on GitHub, the owner has no slash |
| `Monitor.StoredLoads` | services/webhooks/src/openhands_webhooks/status_monitor.py:152-157 | Once its metadata is written, a restart loads the conversation exactly unless its row carries a terminal status |
| `Monitor.LoadsIff` | services/webhooks/src/openhands_webhooks/status_monitor.py:152-157 | A restart considers exactly the rows with a note or a Slack timestamp whose last status is none of those four |
| `Monitor.StoredRows` | services/common/src/openhands_common/db.py:141-183 | Which fields a tracked place writes on the rows of its conversation, for each platform; other rows stay |
| `Monitor.ReloadedGithub` | services/webhooks/src/openhands_webhooks/status_monitor.py:172-183 | The reload reads owner, repository and number back from the printed id |
| `Monitor.MetadataMayComeLate` | services/webhooks/src/openhands_webhooks/status_monitor.py:70-122 | The scheduled write of the metadata may come after any number of polls: cache and database end up as if it had been done at once |
| `Monitor.UpdatesEndToEnd` | services/webhooks/src/openhands_webhooks/status_monitor.py:70-234 | A conversation tracked on a fresh row gets, through any polls and restarts, exactly its de-stuttered statuses up to the first terminal one on the comment or message its handler posted |
| `Monitor.InsertedIsFresh` | services/common/src/openhands_common/db.py:128-136 | A key without a row that is marked and resolved has one row for the conversation, without a last status |
| `Monitor.InsertedUpdatesEndToEnd` | services/webhooks/src/openhands_webhooks/status_monitor.py:70-234 | From the insertion on, with no condition on the row: marked, resolved and tracked, a conversation gets exactly its de-stuttered statuses through any polls and restarts |
| `Monitor.InsertedRestartsAreTransparent` | services/webhooks/src/openhands_webhooks/status_monitor.py:152-234 | From the insertion on, restarts change none of its updates |
| `Monitor.StatusMonitor.Track` | services/webhooks/src/openhands_webhooks/status_monitor.py:70-122 | Tracking changes the cache entry of its conversation and nothing else |
| `Monitor.StatusMonitor.StoreMetadata` | services/webhooks/src/openhands_webhooks/status_monitor.py:81-121 | The scheduled write changes the platform's metadata on the conversation's rows and nothing else |
| `Monitor.StatusMonitor.LoadFromDb` | services/webhooks/src/openhands_webhooks/status_monitor.py:152-186 | Cached conversations stay as they are; exactly the conversations with a loadable row are added, each read from one of its rows; into an empty cache, what the restarts of the runs above load |
| `Monitor.StatusMonitor.PollConversation` | services/webhooks/src/openhands_webhooks/status_monitor.py:198-234 | A changed status is remembered in cache and database and posted once; a terminal one removes only this conversation, unless the post raised |
| `Monitor.StatusMonitor.PollListed` | services/webhooks/src/openhands_webhooks/status_monitor.py:198-234 | One turn of the loop updates cache, rows and posts of its conversation and of no other |
| `Monitor.StatusMonitor.PollOnce` | services/webhooks/src/openhands_webhooks/status_monitor.py:189-234 | In whatever order the cache lists them, every tracked conversation is polled once: the whole new cache, database and post log |
| `ResourceIds.GithubRoundTripIff` | services/webhooks/src/openhands_webhooks/status_monitor.py:172-183 | Reloading recovers the printed owner, repository and number exactly when the owner is non-empty and has no slash, whatever the repository contains |
| `ResourceIds.ParsePrinted` | services/webhooks/src/openhands_webhooks/status_monitor.py:172-183 | What the reload makes of a printed id for every other owner: nothing, or a shorter owner |
| `ResourceIds.GithubIdInjective` | services/webhooks/src/openhands_webhooks/handlers/github.py:56-57 | Two resources with well-formed owners never print the same id |
| `ResourceIds.IntRoundTrip` | services/webhooks/src/openhands_webhooks/status_monitor.py:180-183 | Parsing a printed integer, negative ones included, gives it back |
| `ResourceIds.PrintsDecimal` | services/webhooks/src/openhands_webhooks/status_monitor.py:112-112 | Numbers are printed in decimal without leading zeros, negative ones after a dash |
| `SandboxLaws.WorkspaceSurvives` | pkgs/server/kubernetes_sandbox.py:632-698 | In every run of start, get, pause, resume, delete, recreate and both lifecycle sweeps, with any pattern of failing calls, a workspace claim labelled preserve stays as it is |
| `SandboxLaws.RunsAreIsolated` | pkgs/server/kubernetes_sandbox.py:480-698 | Any run of operations on one id leaves every job, service, ingress and account of other ids, and every claim not labelled with the id, as they were |
| `SandboxLaws.DeleteIsExact` | pkgs/server/kubernetes_sandbox.py:632-698 | Each object of the id goes exactly when its delete does not fail; of the claims exactly the labelled, unpreserved ones |
| `SandboxLaws.DeleteThenRecover` | pkgs/server/kubernetes_sandbox.py:417-438 | After a failure-free delete, get and resume restore job, service and account with the claim untouched exactly when the workspace was not disposable |
| `SandboxLaws.SweepThenRecover` | services/lifecycle/src/openhands_lifecycle/cleanup.py:213-258 | An orphan swept without failures loses all compute resources, and get or resume brings it back whenever its workspace exists |
| `SandboxLaws.RecoverIff` | pkgs/server/kubernetes_sandbox.py:575-592 | With the job gone, get and resume recreate the sandbox exactly when the workspace claim exists, and otherwise change nothing |
| `SandboxLaws.StartSucceeds` | pkgs/server/kubernetes_sandbox.py:560-561 | Without failures and with the job's name free, all manifests are applied and every named object is there |
| `SandboxLaws.PauseThenResume` | pkgs/server/kubernetes_sandbox.py:575-630 | A paused sandbox reports paused and hides its key whatever its pod does, and resuming gives back the very cluster before the pause |
| `Cluster.NamesInjective` | pkgs/server/kubernetes_sandbox.py:306-310 | Job, account and claim names each determine the sandbox id |
| `Cluster.NamesSpelled` | pkgs/server/kubernetes_sandbox.py:306-310 | The names of job, account and claim, spelled out |
| `Cluster.ClaimNameIsNoSandboxName` | services/lifecycle/src/openhands_lifecycle/k8s.py:96-97 | No workspace claim has the name prefix the old-claim sweep looks for |
| `Sandbox.SandboxService.Delete` | pkgs/server/kubernetes_sandbox.py:632-698 | All five deletions in order, whatever fails; the answer is whether the job was deleted by this call |
| `Sandbox.SandboxService.DeleteClaims` | pkgs/server/kubernetes_sandbox.py:676-696 | Exactly the claims labelled with the id and not preserved are deleted, unless the listing or their own delete fails |
| `Sandbox.SandboxService.Get` | pkgs/server/kubernetes_sandbox.py:417-438 | The job's info, or recreation when only the job is missing and the workspace is readable, or nothing; a failed evaluation or job creation gives nothing and any other exception escapes; the whole new cluster |
| `SandboxLaws.GetTells` | pkgs/server/kubernetes_sandbox.py:337-390 | For a readable job: session key and URLs are given exactly if the job is not suspended and its pod runs with no container waiting; the status for every phase, and for no pod with and without failed pods; nothing changes |
| `SandboxLaws.GetTellsMissing` | pkgs/server/kubernetes_sandbox.py:417-436 | Without a readable job: nothing, or a fresh start exactly if the job is missing and the workspace is readable; how each outcome of the start is told |
| `Sandbox.SandboxService.RecreateSandbox` | pkgs/server/kubernetes_sandbox.py:480-513 | Job, service and ingress are removed as far as the API lets go, then the manifests are rendered and applied; claims are not touched by the removal |
| `Sandbox.SandboxService.StartSandbox` | pkgs/server/kubernetes_sandbox.py:556-561 | Manifests are applied in order up to the first that raises; a rendering that fails or raises leaves the cluster as it was |
| `Sandbox.SandboxService.ApplyManifest` | pkgs/server/kubernetes_sandbox.py:192-249 | Existing accounts and claims are kept, a job must be new, services and ingresses never stop the start |
| `SandboxLaws.ApplyStopsIff` | pkgs/server/kubernetes_sandbox.py:192-249 | A start is stopped exactly by a job that exists or cannot be created, and by an account or claim whose creation fails with anything but a conflict |
| `SandboxLaws.ApplyAdds` | pkgs/server/kubernetes_sandbox.py:192-249 | Applying adds the object if its name is free and its call does not fail, and changes nothing else |
| `SandboxLaws.StartInOrder` | pkgs/server/kubernetes_sandbox.py:556-561 | Manifests are applied first to last up to the first that raises; a rendering that fails or raises changes nothing |
| `Sandbox.SandboxService.Resume` | pkgs/server/kubernetes_sandbox.py:575-606 | A suspended job is unsuspended, a missing one recreated when the workspace is readable; the answer, or that an exception escapes, and the whole new cluster |
| `SandboxLaws.ResumeTells` | pkgs/server/kubernetes_sandbox.py:575-606 | Every answer of resume with its whole new cluster, spelled out on job, claim and failing calls |
| `Sandbox.SandboxService.Pause` | pkgs/server/kubernetes_sandbox.py:608-630 | An unsuspended job is suspended; the answer and the whole new cluster |
| `SandboxLaws.PauseTells` | pkgs/server/kubernetes_sandbox.py:608-630 | Every answer of pause with its whole new cluster, spelled out on job and failing calls |
| `Sandbox.SandboxService.SetJobSuspended` | pkgs/server/kubernetes_sandbox.py:618-630 | Writes the suspension only if it differs, answers whether the job now has it, and changes no other object |
| `Sandbox.Kubernetes.ListClaimsOf` | pkgs/server/kubernetes_sandbox.py:678-681 | Lists exactly the claims labelled with the id |
| `Lifecycle.LifecycleManager.CleanupOrphanedSandboxes` | services/lifecycle/src/openhands_lifecycle/cleanup.py:213-258 | The nested loops delete the compute resources of exactly the orphans among the listed ids; failing listings delete nothing |
| `Lifecycle.SweepIsExact` | services/lifecycle/src/openhands_lifecycle/cleanup.py:213-258 | An id loses job, service and ingress exactly if it is old enough and has no conversation or a last-listed one that is missing, errored or stopped, and the delete does not fail; accounts and claims stay |
| `Lifecycle.SecondPassIff` | services/lifecycle/src/openhands_lifecycle/cleanup.py:213-258 | A second pass over the same inputs finds exactly the orphans some resource of which the API did not let go |
| `Lifecycle.OnePassIsEnough` | services/lifecycle/src/openhands_lifecycle/cleanup.py:213-258 | After one pass without failures a second pass finds no orphan and changes nothing |
| `Lifecycle.DecisionIsOrphan` | services/lifecycle/src/openhands_lifecycle/cleanup.py:230-248 | The decision from the dictionary of conversations is the declarative one over the list |
| `Lifecycle.OrphanIff` | services/lifecycle/src/openhands_lifecycle/cleanup.py:227-248 | An orphan has no pod younger than the limit, and every conversation after which none of its sandbox is listed is dead |
| `Lifecycle.DeadIff` | services/lifecycle/src/openhands_lifecycle/cleanup.py:242-248 | Dead are exactly the sandbox statuses missing, error and stopped, and the execution statuses stopped and error, in any letter case |
| `Lifecycle.ByLastIff` | services/lifecycle/src/openhands_lifecycle/cleanup.py:221-225 | The dictionary holds, for exactly the non-empty sandbox ids listed, the last-listed conversation |
| `Lifecycle.SandboxIdsIff` | services/lifecycle/src/openhands_lifecycle/cleanup.py:109-130 | An id is listed exactly when it has a job, a service or an ingress |
| `Lifecycle.SweepOneMore` | services/lifecycle/src/openhands_lifecycle/k8s.py:46-78 | Tearing sandboxes down one after another, in any order, is sweeping the whole set at once |
| `Lifecycle.LifecycleManager.ListSandboxIds` | services/lifecycle/src/openhands_lifecycle/cleanup.py:109-130 | Returns the ids behind all prefixed job, service and ingress names |
| `Lifecycle.LifecycleManager.FindOrphans` | services/lifecycle/src/openhands_lifecycle/cleanup.py:221-248 | Returns exactly the listed ids that are orphans, young pods skipped first |
| `Lifecycle.LifecycleManager.SweepAll` | services/lifecycle/src/openhands_lifecycle/cleanup.py:254-255 | Deletes the resources of exactly the given ids, in any order |
| `Lifecycle.LifecycleManager.DeleteSandboxResources` | services/lifecycle/src/openhands_lifecycle/k8s.py:46-78 | Deletes job, service and ingress of one id, a failure stopping none of the others |
| `Lifecycle.LifecycleManager.CleanupOldClaims` | services/lifecycle/src/openhands_lifecycle/k8s.py:81-112 | Deletes exactly the claims with the sandbox prefix, the workspace suffix and more than the configured age; none if the age limit is not positive |
| `Lifecycle.OldClaimsAreExact` | services/lifecycle/src/openhands_lifecycle/k8s.py:81-112 | A claim goes exactly if the limit is positive, its name has prefix and suffix, it is older than the limit of days, and no call fails |
| `Lifecycle.OldWorkspacesAreKept` | services/lifecycle/src/openhands_lifecycle/k8s.py:96-97 | The sweep never deletes a sandbox's workspace claim, however old: against its documentation, its name pattern matches no workspace |
| `JiraKeys.ExtractedIff` | services/webhooks/src/openhands_webhooks/handlers/gitlab.py:56-64 | A key is extracted exactly when some text has a word-bounded occurrence of it and its number is not zero |
| `JiraKeys.ExtractJiraKeys` | services/webhooks/src/openhands_webhooks/handlers/gitlab.py:56-64 | The nested loops return exactly the counting keys of the texts, none twice, in the order of their first occurrences |
| `JiraKeys.ExtractedInOrder` | services/webhooks/src/openhands_webhooks/handlers/gitlab.py:57-64 | One key stands before another exactly as its first occurrence, by text and then by position, comes first |
| `JiraKeys.SpotIff` | services/webhooks/src/openhands_webhooks/handlers/gitlab.py:59-60 | The candidates with their places are exactly the counting occurrences in all texts |
| `JiraKeys.SpotsInOrder` | services/webhooks/src/openhands_webhooks/handlers/gitlab.py:59-60 | The candidates stand in order of text and position |
| `JiraKeys.Collect` | services/webhooks/src/openhands_webhooks/handlers/gitlab.py:58-63 | One text's matches are appended where new and not excluded, and the marked set stays that of the list |
| `JiraKeys.EndUnique` | services/webhooks/src/openhands_webhooks/handlers/gitlab.py:27-27 | A key that starts at a position can end in one place only |
| `JiraKeys.NoOverlap` | services/webhooks/src/openhands_webhooks/handlers/gitlab.py:27-27 | No key starts inside another |
| `JiraKeys.MatchAtIff` | services/webhooks/src/openhands_webhooks/handlers/gitlab.py:27-27 | Taking every repetition as long as possible finds a match exactly where the pattern has one under any choice |
| `JiraKeys.ScanIsSound` | services/webhooks/src/openhands_webhooks/handlers/gitlab.py:59-59 | Whatever the scan returns is an occurrence, and they are ordered and disjoint |
| `JiraKeys.ScanIsComplete` | services/webhooks/src/openhands_webhooks/handlers/gitlab.py:59-59 | The scan, which never looks back, returns every occurrence |
| `JiraKeys.ExcludedIff` | services/webhooks/src/openhands_webhooks/handlers/gitlab.py:28-28 | The exclusion pattern drops exactly the keys whose number is zero |
| `JiraKeys.FirstOnceLaws` | services/webhooks/src/openhands_webhooks/handlers/gitlab.py:57-64 | The result has the same elements, none twice, in order of first occurrence |
| `Inference.AnswersTrueIff` | services/common/src/openhands_common/db.py:292-316 | Linking answers true exactly for the first call on a resource unlinked before |
| `Inference.FirstLinkStays` | services/common/src/openhands_common/db.py:292-333 | A resource keeps the conversation of the call that answered true through any later calls |
| `Inference.InferConversation` | services/webhooks/src/openhands_webhooks/handlers/gitlab.py:67-83 | The loop tries keys in order, expires stale markers it meets, links the first that leads anywhere and stops |
| `Inference.MatchPrecedence` | services/webhooks/src/openhands_webhooks/handlers/gitlab.py:71-75 | A key's row comes before its ticket, and the ticket before its link; an empty answer counts as none |
| `Inference.InferChanges` | services/webhooks/src/openhands_webhooks/handlers/gitlab.py:67-83 | Inference links at most its own resource, and only if it answers; on the way it expires at most stale markers of its keys |
| `Inference.InferIsFirstMatch` | services/webhooks/src/openhands_webhooks/handlers/gitlab.py:67-83 | The answer is that of the lowest-index key leading to a conversation by mapping, ticket or link, and nothing exactly when none does |
| `Inference.InferenceStableIff` | services/webhooks/src/openhands_webhooks/handlers/gitlab.py:67-83 | After inference, every later link look-up returns the inferred conversation exactly when the resource was unlinked or already linked to it; any earlier link wins |
| `Inference.PendingJiraLinksTheMarker` | services/webhooks/src/openhands_webhooks/handlers/gitlab.py:67-83 | While the Jira conversation is pending, inference links the marker itself for good |
| `Inference.JiraTicketKeepsTheMarker` | services/webhooks/src/openhands_webhooks/handlers/jira.py:148-149 | A ticket linked to the marker refuses the real conversation later and leads to the marker once the row is gone |
| `StatusFetch.PollStartTask` | services/webhooks/src/openhands_webhooks/openhands_client.py:78-123 | The first attempt that names a conversation or a final status decides, a conversation winning over the status; a body that is not JSON raises; after 310 undecided attempts the task has failed |
| `StatusFetch.ChunksPartition` | services/webhooks/src/openhands_webhooks/openhands_client.py:236-239 | The chunks are the ids in order, none empty, none over 20, all but the last full, and as few as possible |
| `StatusFetch.MakeChunks` | services/webhooks/src/openhands_webhooks/openhands_client.py:236-239 | The chunking loop produces those chunks |
| `StatusFetch.FetchStatuses` | services/webhooks/src/openhands_webhooks/openhands_client.py:230-274 | A failed reply or one that is no list loses its own chunk only, all other entries being taken over in order; exactly a body that is not JSON raises and loses everything |
| `StatusFetch.Absorb` | services/webhooks/src/openhands_webhooks/openhands_client.py:257-269 | The entries of one reply are taken over, later ones replacing earlier ones, unnamed ones skipped |
| `StatusFetch.LatestIff` | services/webhooks/src/openhands_webhooks/openhands_client.py:257-269 | A conversation has a status exactly when some entry names it, and it is that of the last such entry |
| `StatusFetch.FetchedSays` | services/webhooks/src/openhands_webhooks/openhands_client.py:243-269 | The fetched status is that of the last entry naming the conversation in the last reply that names it |
| `StatusFetch.FetchedNoneIff` | services/webhooks/src/openhands_webhooks/openhands_client.py:243-269 | A conversation has no fetched status exactly when no reply names it |
| `StatusFetch.EntrySays` | services/webhooks/src/openhands_webhooks/openhands_client.py:260-269 | An entry's execution status decides; without one a paused sandbox is CLOSED, a missing or errored one ERROR, any other RUNNING, in any letter case |
| `StatusFetch.ExecutionSays` | services/webhooks/src/openhands_webhooks/openhands_client.py:126-136 | The execution statuses by name in any letter case, paused as STOPPED, others as they are in upper case |
| `Schedule.FiredOncePerPeriod` | services/lifecycle/src/openhands_lifecycle/app.py:38-47 | For every tick p, interval I and number n of ticks, the counter has fired n divided by its period times and holds the time since; the period is the least number of ticks that reaches I, at least one |
| `Schedule.FiresIff` | services/lifecycle/src/openhands_lifecycle/app.py:38-47 | The counter fires at tick n exactly when n is a multiple of the period |
| `Schedule.Periods` | services/lifecycle/src/openhands_lifecycle/app.py:23-33 | With 20, 60 and 300 seconds the periods are 3 and 15 ticks |
| `Schedule.SweepsIff` | services/lifecycle/src/openhands_lifecycle/app.py:38-47 | An idle sweep runs at exactly the ticks that complete a minute, orphan and old-claim sweeps at exactly those that complete five |
| `Schedule.SweepsAdvance` | services/lifecycle/src/openhands_lifecycle/app.py:38-47 | Sweeps come in the order of their ticks, and none runs twice |
| `Schedule.PeriodReaches` | services/lifecycle/src/openhands_lifecycle/app.py:38-47 | The period is the least number of ticks, at least one, whose time reaches the interval |
| `Schedule.OrphanSweepFollowsIdle` | services/lifecycle/src/openhands_lifecycle/app.py:38-47 | Every orphan sweep comes directly after an idle sweep and directly before an old-claim sweep of the same tick |
| `Schedule.CleanupLoop` | services/lifecycle/src/openhands_lifecycle/app.py:29-47 | For every n, the first n ticks of the loop run exactly the sweeps of the schedule, in order |

## Left out

- Messages, emoji and comment bodies, signature checks, mention and own-comment filters: a webhook that passes them is an `Arrive` action, a message is its text, and a status update a pair of target and status.
- The Slack handler: the same protocol with fewer branches. The Jira handler's own steps: rows of Jira keys are created in the machine by the same steps as GitHub's, its tickets and links are `Ticket` and `Link` actions of the environment, and what linking the marker leads to is stated on its own.
- GitHub webhooks carry no Jira keys: in the machine the keys a webhook's resource mentions come with it, and `JiraKeys` states what they are.
- Database failures, process crashes in the middle of a task, and isolation effects inside a transaction: each session block is one step that succeeds.
- A created conversation id is non-empty and is not the marker text; `Creation.BackgroundCreate` and the machine assume this of the API.
- `seq` order of the pending-message table stands for its autoincrement id order.
- Runs of the machine start with an empty queue and no marker, but with any conversations and links.
- A process that ends before the scheduled write of the metadata loses it; the model writes it late, but not never.
- PollOnce: tracking that begins while a poll is posting is not modelled, nor a database write that raises; the posted updates are a log of those tried.
- A status fetch that raises ends the monitor's loop until the service starts again; the runs of the monitor consist of polls whose fetch returned.
- A Jira comment id is an integer throughout, where the cache holds its text; statuses other than the six the services know are kept by name.
- RestartsAreTransparent: like `TransparentIff`, assumes that no two rows hold the same conversation; with two rows the reload may choose either.
- IntRoundTrip: the parser accepts an optional sign and digits; the blanks and underscores that Python's `int` also accepts are not modelled, and no printed number has them.
- Manifest rendering by `nix eval` and the hook subprocesses: their results are parameters. That every rendered object of an id has the names of that id is a condition of the isolation and recovery laws, taken from the sandbox templates.
- Merge results are maps: the order of keys in a dictionary is not modelled.
- API failures are injected per call and a failed call changes nothing; a call that takes effect and still reports failure is not modelled. An unavailable Kubernetes client is not modelled.
- Each server operation is one step of a run, except that recreating sleeps in the middle, for which tearing down and starting are operations of their own; the listing and the deletions of one sweep are not interleaved with the other service.
- The sweep takes the listed conversations as given; the API lists the first hundred, so a conversation beyond them counts as absent.
- Pods are what the listing answers; exposed URLs and creation times of a sandbox's info are left out.
- Looking a sandbox up by session key: the job is labelled with one form of the key and looked up by another, so nothing is claimed.
- Listing sandboxes page by page and in batches, and idle cleanup: independent reads and one decision per conversation.
- Text is ASCII: word boundaries, digits and letter case outside ASCII are not modelled. The regular-expression search is modelled by its meaning as occurrences and by the left-to-right scan.
- Reply entries that are not objects are entries without an id; values of the wrong type inside an entry are not modelled.
- CleanupLoop: the first n rounds of the endless loop, in exact real numbers; the intervals used are whole numbers, on which floating point is exact.
- The broker, credential services, workspace backends, import hooks and image scripts.
