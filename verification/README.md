# The document pipeline, modelled and proved

A document goes through a graph of steps (`ocr`, then `metadata` and `chunking`, then `external_call`).
Workers take step messages from an at-least-once broker, change step rows in a database and publish the
steps that become ready. A partner's webhook decides `external_call`. A reaper re-publishes stale rows and
times out missing webhooks. All of them change the same rows, one commit at a time, and nothing but a
conditional update (the claim) coordinates them.

The project proves what this protocol guarantees over whole interleaved runs, and that the code of each
actor performs it. `dafny verify dfyconfig.toml` checks everything.

## How the model is built

- `model.dfy`, `rules.dfy`: step rows, statuses, results; what single statements compute. `Rules.Flush` is
  the object-relational session: a commit writes a column only if its value differs from the value that the
  session had loaded, so a stale session can overwrite some columns and leave others alone.
- `dag.dfy`: the dependency graph, with Kahn's validation as the loop the code has.
- `protocol.dfy`: the transition system. The state holds the step rows, the stored document status, one
  process for each broker message or live actor (with the rows and the Document object its session
  cached), the webhook log and the emitted events. Each commit, read, publish, acknowledgement and crash is
  one action, and actions of different processes interleave freely. Messages and deliveries, webhooks,
  scans and runs are unbounded. The graph is any validated graph whose only terminal node is external_call.
- `claims.dfy`, `provenance.dfy`: theorems that need no assumption on the interleaving: exactly-once claims, inputs
  that are there, and where every stored result comes from.
- `nooverlap.dfy`, `status.dfy`, `outcomes.dfy`: theorems under the no-overlap assumption below.
- `progress.dfy`, `liveness.dfy`, `bounds.dfy`: nothing is stranded, retries and all work are bounded.
- `assistance.dfy`, `completion.dfy`, `repair.dfy`: no actor is ever stuck, so runs come to a good end; and what a
  lost publish leaves behind is what a reaper scan re-publishes.
- `finality.dfy`: exactly when DONE and ERROR are final, in runs that may overlap.
- `discharge.dfy`: runs in which the no-overlap assumption holds by itself.
- `walk.dfy`: a run of the shipped pipeline from creation to READY that meets every hypothesis below.
- `overlap.dfy`, `stranded.dfy`: runs of the shipped pipeline which show that the two hypotheses are needed.
- `fleet.dfy`: all documents together. What one document sees of a run of the system is a run of the protocol,
  and no job id belongs to two documents.
- `store.dfy`, `transition.dfy`, `handlers.dfy`, `worker.dfy`, `webhooks.dfy`, `documents.dfy`: the code, one
  module for each part of the program, working on a `Store`. Every section of code between two commits is
  proved to be one action of the protocol: `Store.Valid` says that the fields are the last state of a protocol
  run, and a section asks only where its own actor stands, so sections of different actors may be called in
  any order. A nondeterministic choice in each section stands for Python code that raises there.
- `guarantees.dfy`: what the theorems about runs therefore say about a store.
- `reaper.dfy`: one scan over the rows of all documents, run alone.
- `broker.dfy`, `sse.dfy`, `stream.dfy`: the in-process event broker, what a client ends up showing, and both
  together.
- `cursor.dfy`, `listing.dfy`: opaque cursors and keyset pagination.

## What the theorems assume

- **No overlap** (`Protocol.NoOverlapEver`): for one document and step, at most one writer is between its
  check and its commit. A writer is a delivery, a webhook, or a reaper scan that selected the row. Different
  steps interleave freely, and duplicate messages are allowed as long as they are handled one after another.
  The code does not enforce this: the RUNNING mark and the webhook's check are unguarded read-then-write
  (app/pipeline/handlers.py:98-109, app/api/routes_impl/webhooks.py:31-54). `Overlaps.FinishedStepCanBeUndone`
  gives a run of the shipped pipeline in which an overlap takes a step from DONE back to QUEUED. Each theorem
  that needs the assumption names it. `Discharges.NoOverlapHolds` proves it for every run without a reaper scan
  and without a redelivery under a live handler in which webhooks are decided one at a time, whatever crashes or
  is lost. Without the assumption, finality has an exact condition that can be read off the moment a step is DONE
  or ERROR: it stays so in every continuation if and only if no process undoes it (`Finality.Undoes`): none
  loaded its row earlier and has a commit ahead that may write another status. For DONE these are a handler of
  the step between its load and its commit (unless it is about to save a result), a webhook that is about to
  write ERROR, and a reaper that selected the row to fail it (`Finality.FinalExactly`).
- **Nothing lost** (`Liveness.NothingLost`): no crash between a DONE commit and the end of its trigger, inside
  a recomputation or between creation and its publishes; no message dropped by the broker's delivery limit; and
  no message acknowledged in mid-handling. The last can happen because the callback acknowledges whatever raises
  outside its inner handler, and so also a message that parsed whose session fails to roll back or to close
  (app/worker/main.py:28-40). All other crashes are allowed, and so is a lost broker connection, which puts the
  message back while its handler goes on (app/worker/main.py:57-62). Only the results on stranding need this.
  `Stranding.CrashCanStrand` gives a run in which one such crash strands a document for good, because a
  redelivery of a DONE step is acknowledged without triggering (app/pipeline/handlers.py:99-100);
  `Stranding.DropCanStrand` one in which an acknowledged message leaves its step RUNNING for good; and
  `Stranding.LostWebhookCanStrand` one in which every step is DONE and the document stays PROCESSING.
- "Without crashes" below means that no process dies, no message is lost in mid-handling, and no message goes back
  while its handler lives.
- The step change and the document status are separate commits (app/pipeline/handlers.py:87 and 120-121).
  docs/DESIGN.md:126-128 says that they share a transaction; the model follows the code.
- The step functions either raise or return a value of their step's shape; external_call returns a job id
  that was never handed out before. Webhooks arrive with their signature and shape already accepted.
- The database gives atomic commits and read-committed reads; NOTIFY is delivered in commit order.

## Model

| member | source | states |
|---|---|---|
| Dag.Validate | app/pipeline/dag.py:26-44 | Kahn's loop ends, and accepts exactly the graphs without an unknown predecessor and without a cycle; unknown predecessors are reported exactly when there is one |
| Dag.SomethingIsReady | app/pipeline/dag.py:73-78 | for every done set short of all nodes of a validated graph, `ready_successors` is not empty |
| Dag.ReadyIsStable | app/pipeline/dag.py:73-78 | a ready node stays ready as the done set grows, until it is itself done |
| Dag.CompletionIsTopologicalWalk | app/pipeline/dag.py:51-78 | completing ready nodes in any order visits nodes in topological order, never twice, and can stop exactly after all of them |
| Dag.EveryNodeReachesTheSink | app/pipeline/dag.py:58-71 | in a validated graph with one terminal node every node reaches it |
| Dag.PipelineIsValid | app/pipeline/dag.py:81-88 | the shipped graph is valid, starts with ocr and ends with external_call alone |
| Claims.ClaimedAtMostOnce | app/transactions.py:87-100 | in any run, with crashes, redeliveries (also under a handler that lives on) and overlapping duplicates, a step is claimed at most once and published by its claimants at most once |
| Claims.OnlyClaimsLeavePending | app/pipeline/transition.py:42-49 | only a claim takes a step out of PENDING, to QUEUED, and it is counted |
| Claims.LeftPendingForGood | app/pipeline/transition.py:42-59 | a step that has left PENDING never returns to it, in any run |
| Claims.NoMessageForPending | app/api/routes_impl/documents.py:42-57 | no message and no handler ever exists for a PENDING step |
| Claims.AncestorsWereDone | app/pipeline/transition.py:51-59 | when a step has left PENDING, each of its ancestors had been committed DONE at an earlier moment of the run |
| Claims.InputsAreThere | app/pipeline/handlers.py:167-197 | whenever a handler is about to execute, `transform_input` finds every result it indexes, whatever overlapped or crashed |
| Claims.PipelineInputsAreAncestors | app/pipeline/dag.py:81-86 | in the shipped graph every input a handler indexes belongs to an ancestor, external_call's use of ocr included |
| Claims.StoredJobsWereIssued | app/pipeline/handlers.py:205-212 | in any run, every job id that is stored or about to be saved was handed out by the partner to this document |
| Provenance.ResultsWereExecuted | app/pipeline/handlers.py:81-88 | in any run, overlaps and crashes included, the result stored for a step other than external_call is what a handler of that step executed and got returned at an earlier moment |
| Provenance.PartnerResultWasSent | app/api/routes_impl/webhooks.py:46-48 | in any run, the result stored for external_call is the payload of a completed webhook in the log |
| Provenance.InputsWereExecuted | app/pipeline/handlers.py:167-197 | in any run, an executing handler of metadata or chunking is given the text that ocr returned, and one of external_call that text, what metadata returned and the chunks that chunking returned, each in its place |
| Provenance.SaveStoresOutput | app/pipeline/handlers.py:81-88 | without overlap, a save leaves exactly the output of the handler's own execution and DONE, or the job id and AWAITING_CALLBACK, and no other column changes |
| Status.CallDoneMeansAllDone | app/pipeline/transition.py:22-32 | in every state that runs without overlap reach, external_call DONE implies every step DONE and none in ERROR |
| Outcomes.RowsOnlyAdvance | app/pipeline/handlers.py:81-151 | without overlap, DONE and ERROR are final, attempts never decrease and a job id stays |
| Finality.SealedStays | app/pipeline/handlers.py:98-151 | in any run, overlaps included, a DONE or ERROR step that no process undoes keeps its status from there on, and nobody comes to undo it |
| Finality.UndoerUndoes | app/pipeline/handlers.py:98-151 | if some process undoes the step, some continuation takes it out of that status: a handler at any point between its load and its commit, a webhook about to decide, a reaper anywhere in its list (a document that is FAILED stops a handler that has yet to check it) |
| Finality.FinalExactly | app/pipeline/handlers.py:98-151 | so DONE and ERROR are final exactly if no process undoes the step at that moment |
| Discharges.NoOverlapHolds | app/pipeline/handlers.py:98-109 | without scans, without redelivery under a live handler and with webhooks decided one at a time, writers of one step never overlap, whatever crashes, is dropped or is dead-lettered |
| Outcomes.DocumentStatusMovesOnce | app/pipeline/transition.py:61-70 | without overlap, the stored status moves at most once, from PROCESSING, although its snapshot read and its write are separate actions |
| Outcomes.StatusNeverAhead | app/pipeline/transition.py:22-70 | without overlap and with any crashes, READY implies external_call DONE and no ERROR, FAILED implies some ERROR and external_call not DONE |
| Outcomes.ReadyGate | app/api/routes_impl/webhooks.py:27-56 | without overlap, a READY document has every step DONE with its result, the job id, a completed webhook for that job in the log whose payload is the result of external_call, and no null field in its aggregate |
| Provenance.ReadyShowsOutputs | app/api/routes_impl/documents.py:93-102 | without overlap, the aggregate of a READY document shows what ocr, metadata and chunking returned, its job id, and the payload of a completed webhook for that job, each in its field |
| Outcomes.PartnerCallsBounded | app/pipeline/handlers.py:205-212 | without overlap, external_call ran to a job id at most once, plus once for each crash or dropped message between the call and its commit |
| Outcomes.AttemptsStayBelowTheLimit | app/pipeline/handlers.py:131-151 | without overlap, a row that is not ERROR has attempts left |
| Outcomes.ReaperNeverFindsExhausted | app/worker/reaper.py:58-64 | so, without overlap and with a fixed limit, the reaper never selects a row whose attempts are exhausted |
| Outcomes.FirstOutcomeWins | app/api/routes_impl/webhooks.py:37-54 | without overlap, external_call leaves AWAITING_CALLBACK at most once; the webhook or reaper that takes it out decides DONE with that webhook's payload, or ERROR, no other column changes, and the row stays exactly so |
| Outcomes.LateWebhooksChangeNothing | app/api/routes_impl/webhooks.py:31-43 | without overlap, after the decision no webhook settles anything, and the lookup of any webhook leaves rows, document and events alone |
| Outcomes.WebhookLogIsComplete | app/api/routes_impl/webhooks.py:26-28 | the log is the sequence of the webhooks received, each once, replays and unknown jobs included |
| Liveness.NoStranding | app/pipeline/handlers.py:111-122 | without overlap and with nothing lost: once no message and no live handler is left, the document is FAILED or READY, or external_call awaits its callback with every other step DONE |
| Liveness.QuiescentStatusIsDerived | app/pipeline/transition.py:61-70 | without overlap, if no actor was lost inside its recomputation, then whenever none is recomputing the stored status is the one derived from the rows |
| Liveness.MessagesAreBounded | app/worker/broker.py:38-47 | without overlap and crashes a message is sent back at most max attempts - 1 times, so the delivery limit never drops one |
| Liveness.CrashFreeLosesNothing | app/worker/broker.py:45 | a run without overlap and crashes meets the hypothesis of the stranding result |
| Bounds.DeliveriesAreBounded | app/pipeline/handlers.py:131-151 | without overlap, crashes and reapers each step is delivered at most max attempts times, and the document at most steps times max attempts times |
| Bounds.WorkersTerminate | app/pipeline/handlers.py:91-151 | without overlap, crashes and reapers the handlers of a run take a bounded number of actions altogether, however many webhooks arrive |
| Completion.NobodyIsStuck | app/pipeline/handlers.py:91-151 | in every reachable state each handler, webhook, scan and creation has an enabled action of its own that is no crash and no loss |
| Completion.ExecutingCanSucceed | app/pipeline/handlers.py:111-115 | an executing handler can succeed as well as fail: its inputs are there and some output is enabled |
| Assistance.HelpersTerminate | app/api/routes_impl/webhooks.py:31-56 | without overlap, creation and the recomputations of all webhooks take at most steps + 4 actions altogether, whatever crashes and however many webhooks arrive |
| Completion.RunsEndWell | app/pipeline/handlers.py:111-122 | a run without overlap and losses that no handler, creation or recomputation can continue has no message left, and its document is FAILED, READY or waits for the partner alone |
| Completion.RunsComplete | app/pipeline/handlers.py:91-151 | without overlap, crashes and reapers: the handlers took a bounded number of actions, and so did the creation and the webhooks' recomputations; at the end of the run a handler can take another of its actions, or the creation or a recomputation can, or the document is FAILED, READY or waits for the partner alone |
| Repair.LostPublishesStayQueued | app/worker/reaper.py:1-14 | without overlap, with crashes anywhere and no message lost: a step in flight has its message, or is QUEUED, or its document is FAILED |
| Repair.QueuedIsRepairable | app/worker/reaper.py:65-72 | without overlap, a scan can pick any QUEUED row, and its next action puts a message for it in the broker and changes no row |
| Walks.PipelineCanFinish | app/pipeline/dag.py:81-88 | some run of the shipped pipeline, without overlap, crashes, losses and scans, takes its document to READY and leaves no process, so the hypotheses above can be met to the end |
| Overlaps.FinishedStepCanBeUndone | app/pipeline/handlers.py:98-109 | a run of the shipped pipeline, with one reaper scan, in which two deliveries of ocr overlap: at some moment ocr is DONE while a process undoes it, and at the end it is QUEUED again |
| Stranding.CrashCanStrand | app/pipeline/handlers.py:98-122 | a run of the shipped pipeline in which one crash after a DONE commit leaves no message, no handler, and the document PROCESSING |
| Stranding.DropCanStrand | app/worker/main.py:26-40 | a run of the shipped pipeline without any crash in which a message acknowledged after a failed clean-up leaves its step RUNNING, no message, no handler |
| Stranding.LostWebhookCanStrand | app/api/routes_impl/webhooks.py:54-56 | a run of the shipped pipeline in which a webhook dies between its commit and its recomputation: every step is DONE, nobody is left, and the document stays PROCESSING |
| Stranding.StrandedForGood | app/worker/reaper.py:52-86 | once every row has ended, is PENDING, or is RUNNING with attempts left, no webhook has a job to decide and nobody is at work, no webhook, scan or crash ever changes a row or the document |
| Rules.DisjointCommitsCommute | app/db.py:22 | commits of sessions that change different columns of a row do not disturb each other, whatever they had loaded |
| Handlers.LoadSteps | app/pipeline/handlers.py:92-100 | loading the rows is the protocol's delivery, and decides between acknowledging and going on |
| Handlers.MarkRunning | app/pipeline/handlers.py:105-109 | the commit that marks RUNNING is one protocol action; what it writes depends on what the session had loaded |
| Handlers.SaveOutput | app/pipeline/handlers.py:81-88 | saving a result or a job id is one commit and one protocol action, in both forms of `save_output`; over the row it had loaded it leaves the output and DONE, or the job id and AWAITING_CALLBACK |
| Handlers.OnFailure | app/pipeline/handlers.py:131-151 | for a session that may hold outdated rows and an outdated Document: the attempt is counted, the step fails for good exactly when attempts run out and then the status is recomputed, otherwise it is QUEUED again; every part a protocol action |
| Transitions.ClaimStep | app/pipeline/transition.py:42-49 | true exactly if the stored row was PENDING, which is then QUEUED; one protocol action |
| Transitions.TriggerSuccessors | app/pipeline/transition.py:51-59 | the loop claims and publishes step by step as protocol actions; alone, every ready PENDING step is queued and published once |
| Transitions.RecomputeDocumentStatus | app/pipeline/transition.py:61-70 | read, get and conditional write as separate protocol actions, with the session-cached Document where there is one |
| Handlers.Handle | app/pipeline/handlers.py:91-122 | the whole handler takes only protocol actions of its own message, ends ready to acknowledge or to reject, and alone leaves rows, status and bag as `HandledAlone` says |
| Handlers.VerdictMeans | app/pipeline/handlers.py:131-151 | alone, RETRY exactly when the step was to run, raised and has attempts left, and then only that row changed; ACK only when the step needs no further run or the document failed |
| Handlers.HandlingStoresOutput | app/pipeline/handlers.py:81-151 | alone, handling a runnable step leaves in its row what its function returned, or the counted failure; every other row stays or is claimed |
| Handlers.HandlingAgainChangesNothing | app/pipeline/handlers.py:98-103 | a redelivered message after an ACK changes nothing |
| Transitions.ClaimAllOnlyClaims | app/pipeline/transition.py:57-59 | claiming a list queues exactly its PENDING members and leaves every other row as it was |
| Workers.Callback | app/worker/main.py:22-45 | an unparseable message is dropped; a message that parsed is acknowledged exactly when its handler returns ACK or cleaning up its session raises, and in the first case its step needs no further run or its document failed; otherwise it waits again, counted |
| Webhooks.ApplyPartnerResult | app/api/routes_impl/webhooks.py:25-66 | the log grows by exactly this webhook even if the rest raises, unless recording it raises, and then nothing happened; alone, rows, status and response are those that the next row describes |
| Webhooks.FirstWebhookDecides | app/api/routes_impl/webhooks.py:31-54 | a webhook is processed exactly if its job is known and undecided; then the row holds its payload and DONE, or ERROR, no other row changes, and document and response are FAILED if it or another step failed and READY otherwise; after that any webhook changes nothing and is answered as a duplicate or as unknown |
| Documents.CreateRows | app/api/routes_impl/documents.py:42-51 | one row a step, the entry steps QUEUED and the others PENDING |
| Stores.Store.constructor | app/api/routes_impl/documents.py:29-52 | creation up to its commit is the first state of a run |
| Documents.PublishEntries | app/api/routes_impl/documents.py:54-57 | after the commit every entry step is published once, in order |
| Stores.PublishAllAdds | app/pipeline/publisher.py:19-34 | publishing a list adds one new message for each of its steps, in order, and keeps the others |
| Documents.CreateDocument | app/api/routes_impl/documents.py:29-59 | a new document of the organisation whose rows are in place even if a publish raises; otherwise exactly its entry steps are published |
| Documents.GetDocumentDetail | app/api/routes_impl/documents.py:93-133 | nothing for an unknown document or one of another organisation; otherwise its status and steps, and the aggregate of the stored results exactly if it is READY: unless writers overlapped without a null field, and with what the steps returned and the partner sent, each in its field |
| Guarantees.StatusIsTrue | app/pipeline/transition.py:22-32 | a store without overlap shows READY only with all steps DONE and a logged webhook for its job whose payload it holds, FAILED only with a step in ERROR |
| Guarantees.MessagesAreDue | app/pipeline/transition.py:51-59 | whatever calls were made, every message in the broker is for a step that left PENDING and whose predecessors were all DONE |
| Reaping.Tables.RunOnce | app/worker/reaper.py:48-88 | alone: exactly the expired rows become ERROR with their documents FAILED, exactly the stale QUEUED rows with attempts left are published once each, all else is unchanged, and the result counts both kinds |
| Reaping.Tables.Fail | app/worker/reaper.py:39-45 | one failed row and its recomputed document, the step's event and, if the status changes, the document's, and nothing else |
| Reaping.Tables.LockStaleSteps | app/transactions.py:71-84 | lists exactly the rows in the given statuses whose updated_at lies before the cutoff, each once |
| Reaping.ScanMeans | app/worker/reaper.py:48-88 | what such a scan does to a row that does not wait for a callback: left alone if not in flight or touched within the timeout; an older one is ERROR with its document FAILED if its attempts are used up, else published once if QUEUED and left alone if RUNNING |
| Reaping.ScanOfWaiting | app/worker/reaper.py:75-86 | a row that waits for its callback longer than the SLA becomes ERROR with its document FAILED, a younger one is left alone |
| Reaping.ScanOfDocument | app/worker/reaper.py:39-45 | a document is written, to FAILED, exactly if one of its steps failed and it was not FAILED before |
| Reaping.DueStays | app/worker/reaper.py:48-88 | a row that a scan would fail or publish is still due at every later moment |
| Reaping.ScanAnnounces | app/worker/reaper.py:39-45 | a scan emits one ERROR for each step it failed and one FAILED for each document whose status this changed, and no other event |
| Reaping.ReapRefinesTheProtocol | app/worker/reaper.py:57-72 | with nobody interfering, a round of the first loop writes, publishes and announces what the protocol's reaper action does |
| Sse.ClientConverges | app/api/events.py:49-63 | without overlap, subscribe, then a snapshot read at any moments, then all deltas, ends with the stored document status and each step's status, or RUNNING where a retry is QUEUED |
| Stream.StreamConverges | app/api/events.py:49-63 | without overlap, a client that was subscribed while the listener dispatched its document's commits in order, with none of its deltas dropped and none pending, shows the stored statuses (or RUNNING for a retry) after what it took and what lies in its queue |
| Stream.StreamIsInOrder | app/events/notify.py:89-105 | even with deltas dropped or pending and writers overlapping, what a client got is a subsequence, in commit order, of what its document emitted since it subscribed |
| Broker.EventBroker.Subscribe | app/events/notify.py:74-78 | a new empty queue joins the document's subscribers, and those of all documents stay |
| Broker.EventBroker.Unsubscribe | app/events/notify.py:80-86 | exactly that queue leaves, the other subscribers stay, and no empty subscriber set is kept |
| Broker.EventBroker.Dispatch | app/events/notify.py:89-96 | once the loop is set, one callback for each queue subscribed to the document and not unsubscribed since, each once, and for no other queue; before that none |
| Broker.EventBroker.DispatchAll | app/events/notify.py:134-141 | the listener dispatches what it received in order; so each client was handed exactly the deltas dispatched for its document since it subscribed |
| Broker.EventBroker.RunNextCallback | app/events/notify.py:98-105 | the oldest callback is accepted unless the queue is full, and is otherwise counted as dropped; every delta scheduled stays pending, accepted or dropped, and no queue exceeds its cap |
| Broker.EventBroker.Get | app/api/events.py:59-62 | a client takes its oldest delta |
| Broker.ClientReceivesInOrder | app/events/notify.py:89-105 | each client gets, in order, a subsequence of the deltas dispatched while it was subscribed, and all of them if none was dropped or is pending |
| Fleets.ViewIsRun | app/worker/reaper.py:48-88 | what one document sees of a run of the whole system, scans over all documents and foreign webhooks included, is a run of the protocol that ends in the document's state |
| Fleets.EveryReadyDocumentIsConfirmed | app/api/routes_impl/webhooks.py:30-56 | without overlap, the ready gate for every document of the system |
| Fleets.OneDocumentPerJob | app/transactions.py:40-43 | in any run of the system no two documents hold the same job id, so the lookup never finds several rows |
| Fleets.LookupSelectsOne | app/api/routes_impl/webhooks.py:30-43 | in any run, after a webhook's lookup at most one document is left with it |
| Cursor.CursorRoundTrip | app/pagination.py:20-33 | decoding an encoded cursor gives back its key, for every key, and what is encoded is time and id around the separator |
| Cursor.Base64RoundTrip | app/pagination.py:20-33 | base64url (section 5 of RFC 4648) decodes to the bytes it encoded |
| Cursor.TestVectors | app/pagination.py:20-22 | the test vectors of section 10 of RFC 4648, with the URL alphabet |
| Cursor.DecodesExactly | app/pagination.py:25-33 | a cursor is accepted exactly if it is base64 of text with exactly one separator, between a time and an id that parse |
| Cursor.ForeignIsSkipped | app/pagination.py:25-33 | characters outside the alphabet do not matter, wherever they stand |
| Cursor.NoLettersIsRefused | app/pagination.py:25-33 | text without a letter of the alphabet is a malformed cursor |
| Listing.ListDocuments | app/api/routes_impl/documents.py:62-90 | the page of the matching rows after the cursor, newest first, with a next cursor exactly if more rows match; an error exactly for a malformed cursor |
| Listing.OrderByDescends | app/transactions.py:58-64 | the query's rows come newest first, rows created at the same time by falling id |
| Listing.PageIsNewestFirst | app/transactions.py:46-68 | a page holds rows of the organisation older than its cursor, newest first, and each such row that it leaves out is older than all it holds |
| Listing.WalkSeesEachDocumentOnce | app/api/routes_impl/documents.py:62-90 | while rows are inserted between pages, a walk shows newer documents before older ones and, when finished, every document that existed at its first page exactly once |
| Listing.NewcomersStayAway | app/api/routes_impl/documents.py:62-90 | a document newer than what a page ended with, inserted whenever, is on no later page of the walk |
| Listing.WalkShowsOwnDocuments | app/transactions.py:58-68 | every item is a document of the organisation, column by column as stored when its page was fetched |
| Listing.FixedTableWalk | app/api/routes_impl/documents.py:62-90 | on a fixed table the pages concatenate to the list of all documents, newest first, and a walk is finished exactly after max(1, ceil(n / limit)) pages |

## Left out

- FastAPI routing, schemas, authentication, configuration, logging, seeding and migrations: no deep property.
- Signature checking of webhooks: a library call; the model takes accepted webhooks.
- The step functions in app/pipeline/steps.py: a nondeterministic choice between a value and an exception.
- pika, SQLAlchemy and Postgres internals: a bag of messages with redelivery, atomic commits, and the cached
  objects of a session. Row locks of the reaper are not modelled; its first failed row commits and ends them
  (app/worker/reaper.py:44).
- Documents of `Fleets` exist from the start: a document that is created later is one whose creator waits. The
  order in which a scan handles rows of different documents is left open there.
- Interleaving inside an imperative handler: `Handlers.Handle` runs its sections one after another, and the
  interleaving of actors is the protocol's; that the code takes the protocol's actions is what connects them.
- Reaper scans on a `Store`: they are protocol actions, and `Reaping` has the imperative scan.
- A message for a deleted document (app/pipeline/handlers.py:95-96): nothing deletes documents.
- error_text, started_at and finished_at: no behaviour depends on them.
- The SSE generator's keep-alive frames and its 404: `Sse` works on the values that reach the client.
- The LISTEN thread, `stop`, and file storage: I/O.
- Printing and parsing of datetimes and UUIDs: assumed inverse, on ASCII text without the separator.
- Cursors that decode to bytes beyond ASCII: refused here, while the code first decodes UTF-8 and then fails to
  parse.
- Wall-clock time: staleness is a comparison of integers.
- Finality.FinalExactly: does not cover a document that is FAILED with a handler that has yet to check it. There
  the handler gives up unless the document leaves FAILED before, which no run without overlap does;
  `Finality.SealedStays` holds there too.
- Redelivery under a live handler: the model lets a handler whose message went back also put its own copy back
  when it asks for a retry or dies, while the broker has already taken that copy away: more runs than the code
  has. It also lets a message go back several times.
- Liveness after a crash in the trigger or recompute window, after a dead-lettered message, or for a QUEUED step
  of a FAILED document: the code gives no such guarantee.
