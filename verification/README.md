# Session engine of the Codex ACP adapter: a verified model

The adapter sits between an ACP client and a Codex backend process. While live backend events, paged history
replays, settings changes, cancellations and teardown interleave, it has to keep the client's view of every
thread correct, answer every request once, and give back every resource. This project models that engine in
Dafny and proves what it keeps.

## How the model is built

Each module holds one component.

- A component that keeps state is modelled twice. A class has the program's mutable fields, and one method
  for each region that the program runs under a mutex or between two awaits; the method's postcondition ties
  the new state to a function of the old one. A value state machine then runs the same functions in any
  order: `Step` lists the atomic steps, `Enabled` says when one can happen, `Apply` what it does, and `Legal`
  and `Execute` range over every finite run. The main lemmas are about all legal runs from the initial state.
- A timeout, a dropped future or an I/O failure is a step that may happen at any time. Nothing is claimed
  about how long anything takes.
- Loops over input (line framing, paging, the ancestry walk, the walk over a directory tree) are methods
  with loops, proved equal to a recursive or declarative specification.

| module | component |
|---|---|
| `Reconcile`, `Resets` | history replay against live events: sequence numbers and cutoffs; whole replays, resets and clears |
| `Pipeline`, `Routing`, `NoLoss`, `Arrivals` | backend reader, event pump, setup buffer, registrations and fences; where each event goes, what is lost, what a fence has seen, and when order is lost |
| `Delivery` | one session's bounded queue and its single worker |
| `McpLeases`, `McpRequests` | native MCP connections: permits, leases, disconnects; request identities |
| `Overlay`, `Config`, `Barrier` | settings: resume overlay, comparison and patches, unresolved mutations |
| `Turns` | the foreground turn |
| `Teardown` | client callbacks and closing a session |
| `Rpc`, `Framing` | backend request correlation; line framing on both sides |
| `Ownership` | which session owns a backend thread; identities of projected child items |
| `Replay`, `Transcripts` | paging, the entry budget and the descendants of a replay; which replies make one succeed |
| `Descendants`, `Closings` | closing what a session's subagents left loaded; which replies let that succeed |
| `Schema` | form schemas and the answers to them |
| `RuntimeTree` | extraction and verification of the embedded runtime |

How the main results fit together. `Rpc.RepliesFollowEvents` says that whoever sees a reply numbered S can rely
on all events below S being in the channel. `Arrivals.FenceObservesEarlierEvents` carries that through the pump to
the session's queue, whose handling in order is `Delivery.DeliveryInOrder`; its marker gets there exactly if the session has stayed the
same (`Routing.FenceReachesExactly`). So after a fence the worker has passed
every frame of the session's own thread up to the sequence that the caller had seen. That is the enabling condition
of `FenceReturns` in `Reconcile` and of the resume step in `Overlay`. It is not yet what resume's clear needs: the
worker may have reset and replayed between the request and the return. `Resets.FencedClearExactly` has the exact
condition, `Resets.QuietFenceSuffices` says when the fence is enough, and `Resets.ResumeRestores` puts fence, clear,
second fence and replay together: the transcript is complete by `Resets.CompleteReplayRestores`.

A session's queue carries the events of its own thread and of the threads that descend from it. `Pipeline`, `NoLoss`
and `Arrivals` follow every thread to the queue of the session that owns it, and `Reconcile` has a position for each
thread, because their order among each other is not always kept (`Arrivals.QueueOrderLostExactly`).

Assumptions about the outside, which the models state as preconditions or as enabledness of steps: the backend
emits frames in order; a page answered at sequence S shows its entities as they were at frame S; item
snapshots carry the whole content of the entity that they replace; ids of backend requests are not reused;
what the backend says about a thread's parent is true and does not change; the backend accepts turn starts in
order and runs one turn at a time, among them turns of its own.

## Where the code does less than its shape suggests

These are properties that one might expect and that do not hold. For each there is a lemma with the exact
condition and, where a run is needed to see it, a legal run that ends wrong.

- `reset_history` stores its cutoff without comparing it with the old one. A queued revert by somebody else moves
  it backwards; after a complete replay the transcript is still right exactly if no queued item frame behind that
  revert names an entity that the pages do not list (`Resets.LateRevertExact`, `Resets.LateRevertHappens`).
- A `thread/reverted` is swallowed once after our own revert, whoever caused it. That is right for an entity
  exactly if the revert lies below its cutoff or leaves what the item frames since its page have made
  (`Resets.SkippedRevertExact`, `Resets.ForeignRevertSwallowed`).
- Events of a thread can be lost in several ways, all listed (`NoLoss.LostExactly`). None of them touches an open
  session's own thread (`NoLoss.OpenSessionLosesNothing`), or the new thread of a setup that no other registration
  or fence overlaps (`NoLoss.SetupLosesNothing`). An open session's descendants are not safe: while any other setup
  runs their events are buffered, and a failed setup drops them (`Arrivals.DescendantLost`). Nothing of a descendant is
  lost if no setup fails while it buffers an event of that descendant and the ancestry is answered
  (`NoLoss.ServedThreadLosesNothing`).
- A session's queue leaves reader order exactly when it is handed an event while an earlier one for it, a descendant's,
  is still in a setup's buffer (`Arrivals.QueueOrderLostExactly`, `Arrivals.QueueDisordered`).
- A fence can return although an earlier event of a descendant has not been handled, because another setup
  still buffers it (`Arrivals.FenceMissesBuffered`).
- A setup that is answered without a thread id leaves its buffer in place. A thread that is resumed meanwhile gets
  out of order exactly when one of its events overtakes buffered ones (`Arrivals.OrderLostExactly`,
  `Arrivals.OvertakingHappens`).
- The fence in front of resume's clear does not make the clear safe. If a revert is queued in front of the marker, the
  worker resets and reads pages that were answered after the request; clearing their cutoffs lets the deltas behind
  the marker through a second time. The clear costs nothing exactly if every stored cutoff has been passed
  (`Resets.FencedClearExactly`, `Resets.FencedClearHappens`, `Resets.EarlyClearExact`).
- When a handler fails, its worker ends with `running` still set: a waiting entry has a worker exactly if none
  failed, and after a failure nothing is processed any more (`Delivery.DeliveryInOrder`, `Delivery.FailureIsFinal`).
- The byte limit of a session queue saturates; its unchecked addition fits a machine word in every run exactly if
  four frames do (`Delivery.AdditionFitsExactly`).
- The model and effort inside `collaborationMode` depend on whether an event is handled before or after the
  resume reply (`Overlay.LateModeExact`, `Overlay.LateModeDiffers`).
- Only the last completed turn is remembered: a late reply revives a finished turn exactly if another completion
  has been handled since, which takes a turn that the backend began itself (`Turns.RevivedExactly`,
  `Turns.RevivalHappens`).
- `new_session` installs its leases without the gate: after a close has taken a session's leases it has leases
  again exactly if its creation installs them then (`Teardown.LeasesExactly`, `Teardown.LateLeasesHappen`).
- A resume whose fence fails leaves the session that it has just added registered and open
  (`Teardown.HalfResumedHappens`).
- Lines that contain a newline or end with a carriage return are not read back as they were written
  (`Framing.WrittenLinesReadBack`).
- Child item identities of two threads can collide if one thread id, followed by a colon, begins the other
  (`Ownership.ChildItemsCollideExactly`).
- A descendant that one discovery round lists twice is closed twice (`Descendants.ClosedOnceExactly`,
  `Descendants.FoundOnceExactly`, `Descendants.ClosedTwiceHappens`).
- Rewriting a legacy schema drops an older `oneOf` (`Schema.NormalizeExactly`, `Schema.NormalizeCanChange`).
- A selector can show an effort, an approval policy or a mode that is not among its choices
  (`Config.CurrentIsOffered`, `Config.CurrentNotOffered`), and what it showed before a selection can be restored exactly
  if it is one of the regular choices (`Config.ReselectExactly`).

## Model

| member | source | states |
|---|---|---|
| `Reconcile.ReplayIsReconciled` | src/server/events.rs:227-243 | in every run, in whatever order the threads of a session are handled, an entity no longer owed to the client is what the item frames have made of it between its page or reset and the maximum of its thread's position, the history cutoff and its snapshot cutoff; that is the backend's entity there exactly if exchanges of the history left it so, in particular if there was none; each thread's activity outside history arrives exactly once in its order; revisions count resets |
| `Reconcile.CurrentExactly` | src/server/events.rs:227-243 | whether a copy is current is a question about the log alone, and no exchange since its page or reset suffices |
| `Resets.CompleteReplayRestores` | src/server/history.rs:13-71 | from every state the invariant allows, a replay whose pages list everything owed leaves nothing owed; as long as no reset follows, and no clear before the stored cutoffs have been passed, every entity that no later frame exchanged is current, and when all has been handled the transcript is the history |
| `Resets.ResumeRestores` | src/server/lifecycle.rs:165-236 | one run of a resume: fence, clear, second fence and complete replay; if nothing was replayed or reset between the request and the clear, and descendants' cutoffs have been passed, the transcript is restored |
| `Resets.ReplaySupplies` | src/server/history.rs:97-117 | a replay takes exactly the ids of its pages out of what is owed and leaves every other entity alone |
| `Resets.OnlyResetsOwe` | src/server/lifecycle.rs:213-227 | if every clear takes place after the stored cutoffs have been passed, only a reset adds to what is owed |
| `Resets.ListingCoversOwed` | src/server/history.rs:179-190 | pages that list the history at their end list all that a reset owed, if nothing was exchanged meanwhile, also what the worker had already handled beyond the boundary |
| `Resets.QuiescentViewIsHistory` | src/server/history.rs:13-71 | in any run, once all that was read has been handled, nothing is owed and no handled frame exchanged an entity after its page or reset, the transcript is the history |
| `Reconcile.DeliverOne` | src/server/events.rs:227-245 | one delivered frame moves one entity exactly as it moves the fold of the log: applied zero times when a page covers it, once otherwise |
| `Reconcile.ReplayView` | src/server/history.rs:97-117 | a page replaces the entities that it lists by their content at its sequence and touches no other |
| `Reconcile.ReplayCutoffs` | src/server/history.rs:99-107 | a page records its own sequence for exactly the entities it lists |
| `Resets.FencedClearExactly` | src/server/lifecycle.rs:170-215 | in every run that reaches resume's clear, behind its returned fence and under the lock, the clear leaves what is owed and every horizon unchanged exactly if every stored cutoff has been passed by the worker or the history cutoff; the transcript it never changes |
| `Resets.QuietFenceSuffices` | src/server/lifecycle.rs:170-215 | that condition holds if no page was written and no reset made between the fence's request and the clear, and the cutoffs of descendants' items have been passed |
| `Resets.FencedClearHappens` | src/server/lifecycle.rs:170-215 | a run in which a fence has returned, the clear behind it makes an entity owed, and the delta behind the marker is applied twice |
| `Resets.EarlyClearExact` | src/server/lifecycle.rs:213-215 | after a clear that came too early for an entity, and the frames up to its cutoff, it is right exactly if none of them appends to it, or one rewrites it |
| `Resets.SkippedRevertExact` | src/server/events.rs:194-212 | skipping a revert leaves a current entity of the session's thread right exactly if the revert lies below its cutoff or has the content that the item frames since its page made |
| `Resets.EchoSkippedRightly` | src/server/extension_requests.rs:266-276 | an echo below the reset's cutoff, or with the history of our reply and nothing of the entity between, is skipped rightly |
| `Resets.ForeignRevertSwallowed` | src/server/events.rs:194-198 | a run in which somebody else's revert spends the flag and the transcript ends wrong |
| `Resets.LateRevertExact` | src/server/history.rs:179-190 | after a late revert's reset and a complete replay, and any deliveries up to its last page, the transcript is the history exactly if no item frame that was queued behind the revert names an entity that the pages do not list |
| `Resets.LateRevertHappens` | src/server/history.rs:179-186 | a run in which everything is handled, nothing is owed, and the transcript is wrong |
| `Resets.FlagExactly` | src/server/extension_requests.rs:266-276 | in every run a revert would be skipped exactly if a reset for our own has taken place and no revert has been handled since |
| `Resets.DiagnosticsExactly` | src/server/events.rs:194-212 | a client that has not negotiated resets is told of every revert that the worker handles, once, and never reset; any other is told by resets alone |
| `Reconcile.Session.Notification` | src/server/events.rs:194-299 | one notification changes the session as the state machine's delivery does |
| `Reconcile.Session.ResetHistory` | src/server/history.rs:179-196 | the reset boundary: revision, cutoffs cleared, history cutoff stored, client told |
| `Reconcile.Session.ReplayPage` | src/server/history.rs:97-117 | the loop over a page's entries writes cutoff and replacement entry by entry |
| `Pipeline.PumpOrder` | src/server/events.rs:23-91 | every thread's events that are not gone are in exactly one place each, the queue of its own or its owner's session included, in reader order as long as none overtakes buffered ones; the setup buffer's bytes are exact and bounded |
| `Pipeline.MarkerSeparates` | src/server/events.rs:26-35 | in front of a `Registered` marker stand exactly the thread's events that the pump had consumed when it queued the marker, those handed to its owner's session earlier aside |
| `Routing.SetupExactly` | src/server/mod.rs:182-224 | in every run the setup flag is set exactly if a setup was begun that neither failed nor had its registration's marker queued since |
| `Routing.FinishedSetupEnds` | src/server/events.rs:26-35 | when the pump has taken the marker that finishes a setup, no event is buffered in any later state until another setup begins |
| `Routing.EventGoesExactly` | src/server/events.rs:67-92 | in every reachable state the place of the next event: the buffer exactly while a setup is under way and no marker waits, for a thread that is no session; else its own open session's queue, or the open one it is known to belong to, or none; nothing else moves |
| `Routing.PumpStopsExactly` | src/server/events.rs:75-85 | the pump stops at an event exactly if a setup has to keep it and its buffer holds 256 events or would hold more bytes than a frame may have |
| `Routing.RegistrationExactly` | src/server/events.rs:39-61 | a new session is open with an empty queue and the buffer queued for it; a fence queues what the channel holds; no other queue changes |
| `Routing.FenceReachesExactly` | src/server/mod.rs:228-242 | a fence's marker is put at the end of its session's queue exactly if that session has not been closed or replaced since the request |
| `Routing.SessionStepsExactly` | src/server/lifecycle.rs:159-166 | a resumed session is open with an empty queue, and opening, closing and removing concern that session alone |
| `Arrivals.FenceObservesServedThreads` | src/server/mod.rs:228-242 | when a fence has returned, every event up to any sequence the caller had seen, of every thread that the session serves and no setup's buffer held meanwhile, has been handled, if the session was open since the event was known to be coming |
| `Arrivals.FenceObservesEarlierEvents` | src/server/mod.rs:228-242 | for the session's own thread it is enough that the session stays open and the buffer holds nothing of it at first |
| `Arrivals.FenceMissesBuffered` | src/server/events.rs:69-91 | a run in which a fence returns while another setup's buffer holds an earlier event of a descendant |
| `NoLoss.ServedThreadLosesNothing` | src/server/events.rs:69-94 | for its own thread and for each descendant: while the session stays open, no setup fails with an event of the thread in its buffer and the ancestry is answered, no event that is coming leaves the pipeline other than into the session's queue |
| `NoLoss.OpenSessionLosesNothing` | src/server/events.rs:69-92 | for the own thread it is enough that the session stays registered and open: each event is in its queue or on the way |
| `NoLoss.SetupLosesNothing` | src/server/mod.rs:182-224 | in a successful setup that no fence or other registration overlaps, no event of the new thread is lost, and those buffered stand in front of the marker |
| `NoLoss.LostExactly` | src/server/events.rs:69-94 | in every reachable state, all the ways in which a step loses an event, a descendant's included: its queue goes with its session, the setup that buffers it fails, or it is handed to nobody |
| `Arrivals.DescendantLost` | src/server/mod.rs:186-205 | a run in which a failed setup loses a descendant's event while the owner is open throughout |
| `Arrivals.OrderLostExactly` | src/server/lifecycle.rs:161-166 | the events of any thread get out of order exactly in the step in which one overtakes buffered ones |
| `Arrivals.QueueOrderLostExactly` | src/server/events.rs:69-94 | a session's queue, its descendants' events included, leaves reader order exactly in the step that hands it an event while an earlier one for it is in a setup's buffer |
| `Arrivals.QueueOrder` | src/server/events.rs:69-94 | until then the queue is in reader order, in every run |
| `Arrivals.QueueDisordered` | src/server/events.rs:69-91 | a run in which no thread overtakes itself and an open session's queue is not in reader order |
| `Arrivals.OvertakingHappens` | src/server/mod.rs:182-209 | a run in which a thread overtakes itself |
| `Pipeline.EventPump.EnqueueSessionEvent` | src/server/dispatch.rs:54-76 | appends to the session's queue and changes nothing else |
| `Pipeline.EventPump.FlushMarker` | src/server/events.rs:26-35 | the marker follows everything that was queued with it and ends the setup |
| `Pipeline.EventPump.OnRegistration` | src/server/events.rs:39-61 | a new session takes the setup buffer; a fence drains the channel's present content in order |
| `Pipeline.EventPump.OnEvent` | src/server/events.rs:67-92 | buffering within both bounds, or routing to the owning session |
| `Delivery.DeliveryInOrder` | src/server/dispatch.rs:54-134 | processed, in-flight and pending entries together are always the accepted sequence; one worker at most; a waiting entry has a worker exactly if no handler failed; byte count exact and bounded |
| `Delivery.FailureIsFinal` | src/server/dispatch.rs:97-129 | after a failure no later step processes anything, in any run |
| `Delivery.NoUnderflow` | src/server/dispatch.rs:87-96 | the worker's subtraction never underflows |
| `Delivery.AdditionFitsExactly` | src/server/dispatch.rs:69-75 | in every run the addition behind the saturating check fits a machine word, exactly if four frames do |
| `Delivery.AcceptedExactly` | src/server/dispatch.rs:68-76 | in every run an entry is accepted exactly if fewer than 256 wait and their bytes with its own are at most four frames'; it then waits behind all others |
| `Delivery.TakenExactly` | src/server/dispatch.rs:85-96 | a free worker takes the entry that has waited longest, or ends when none waits |
| `Delivery.SessionEvents.Enqueue` | src/server/dispatch.rs:68-83 | acceptance condition, accounting, and a worker started only if none runs |
| `Delivery.SessionEvents.Next` | src/server/dispatch.rs:85-96 | the next entry in order, or the worker stops under the lock |
| `McpLeases.PermitsConserved` | src/mcp/listener.rs:44-69 | free slots plus live connects and leases are 32 per listener and 128 in all, in every state; the connect counter is exact |
| `McpLeases.CloseDrains` | src/mcp/listener.rs:118-135 | after a close obtained every slot, in all later states the table is empty, no lease of the listener exists and no connect is admitted |
| `McpLeases.DisconnectOnce` | src/mcp/mod.rs:287-319 | an accepted connection is sent one disconnect request and gives its slots back only after that attempt ended |
| `McpLeases.CleanupRemovesOwnEntry` | src/mcp/resources.rs:125-140 | cleanup removes the lease's own table entry and no other lease's |
| `McpLeases.UnknownMeansNone` | src/mcp/mod.rs:190-211 | a lookup answers "unknown" only if no lease has the id and no connect that could bring it is under way |
| `McpLeases.LookUpExactly` | src/mcp/mod.rs:190-211 | a lookup finds exactly the lease whose entry has the id, and answers "unknown" exactly if there is none and no connect under way |
| `McpLeases.ConnectExactly` | src/mcp/listener.rs:44-56 | in every reachable state a connect is admitted exactly if the listener is open and fewer than 32 connects and leases of it are alive; a close obtains all slots exactly if none is |
| `McpLeases.ConnectProceedsExactly` | src/mcp/mod.rs:135-163 | a connect proceeds exactly if fewer than 128 are alive in all, is accepted exactly if the client's id is not in use, and becomes a lease exactly if the listener is still open |
| `McpLeases.TableExactly` | src/mcp/listener.rs:71-79 | a lease enters the session table exactly if neither side is shut down, and leaves it for cleanup when the listener is drained |
| `McpLeases.ShutdownIsFinal` | src/mcp/listener.rs:118-135 | after a shutdown no connect is admitted and no lease enters the table, in any later state |
| `McpLeases.OverflowExactly` | src/mcp/mod.rs:264-285 | an overflow shuts the endpoint down, leaves its entry, and lets it be disconnected at once |
| `McpLeases.EveryLeaseCanEnd` | src/mcp/mod.rs:287-319 | from every reachable state a connect or lease can be brought to its end by its own steps alone |
| `McpLeases.ListenerState.Connect` | src/mcp/listener.rs:44-56 | admission under the table lock |
| `McpLeases.ListenerState.RegisterLease` | src/mcp/listener.rs:71-79 | a lease enters the table only while neither listener nor endpoint is shutting down |
| `McpLeases.ListenerState.Disconnect` | src/mcp/listener.rs:108-116 | takes one lease out of the table |
| `McpLeases.ListenerState.CloseTable` | src/mcp/listener.rs:118-120 | shutdown, then everything in the table is taken |
| `McpLeases.EndpointState.Disconnect` | src/mcp/mod.rs:287-290 | only the first caller sends the request |
| `McpRequests.ForwardIdentity` | src/mcp/http.rs:225-273 | forward ids in flight are distinct and at most 32; a cancellation signals the request of that id and no other, and nobody twice |
| `McpRequests.ReverseIdentity` | src/mcp/mod.rs:213-247 | a reverse id leaves `pending` exactly once; a cancellation is published at most once and never for an answered request |
| `McpRequests.CancellationExactly` | src/mcp/mod.rs:334-347 | the guard publishes exactly if it removed the id itself on a live endpoint with room |
| `McpRequests.ForwardAdmittedExactly` | src/mcp/http.rs:225-247 | a forward request is relayed exactly if no request in flight has its id and fewer than 32 are in flight; an initialize always is |
| `McpRequests.ReverseAdmittedExactly` | src/mcp/mod.rs:213-247 | a reverse request gets the next id and is published exactly if fewer than 32 wait, the endpoint is live and its stream has room; without room the endpoint closes |
| `McpRequests.AnswerTakenExactly` | src/mcp/http.rs:150-186 | an answer is taken exactly if its request still waits |
| `McpRequests.ClosedIsSilent` | src/mcp/mod.rs:264-285 | after a close nothing is published in any later state |
| `McpRequests.EndpointMaps.ForwardRequest` | src/mcp/http.rs:231-247 | duplicate and limit checks, then the entry |
| `McpRequests.EndpointMaps.Cancel` | src/mcp/http.rs:188-201 | takes the cancel sender of exactly that id, once |
| `McpRequests.EndpointMaps.PublishMessage` | src/mcp/mod.rs:264-285 | queues on a live endpoint, or closes it |
| `McpRequests.EndpointMaps.DropPending` | src/mcp/mod.rs:334-347 | removal, and a cancellation if the guard was the one to remove |
| `Overlay.OverlayConfluence` | src/server/events.rs:262-293 | however late events are handled, once none before the reply is left every setting but the collaboration mode is last-writer-wins in frame order |
| `Overlay.GenerationCounts` | src/server/events.rs:262-293 | in every run the generation counts the full notifications that were handled, and no reply |
| `Overlay.LateModeExact` | src/server/events.rs:272-285 | early and late handling agree exactly if the mode already agrees with the reply |
| `Overlay.LateModeDiffers` | src/server/events.rs:272-285 | settings and a reply for which they differ |
| `Overlay.PatchedModeAgrees` | src/server/events.rs:272-285 | a late mode gets the reply's model and effort and is otherwise the one that was notified |
| `Overlay.UnfencedResumeExact` | src/server/lifecycle.rs:170-213 | a second resume without the fence: when a setting is right once the queued notifications have been handled |
| `Overlay.SettingsData.SettingsUpdated` | src/server/events.rs:262-293 | the notification's branch, overlay and nested patch included |
| `Overlay.SettingsData.ResumeReply` | src/server/lifecycle.rs:201-213 | the reply laid over what was observed, kept as overlay, and its sequence |
| `Config.SameSandboxIsCanonical` | src/config.rs:272-317 | sandbox comparison is equality of canonical forms on recognised policies |
| `Config.SandboxFields` | src/config.rs:272-317 | what an omitted field means for each kind of policy, and that a field of another kind makes a policy the same as no other |
| `Config.MatchesExactly` | src/config.rs:33-68 | when the settings show a requested value, for each key |
| `Config.HeldMatches` | src/config.rs:19-68 | settings that hold what a patch asks for match it, and the patch is a no-op |
| `Config.PatchShowsChoice` | src/config.rs:202-262 | settings that took a choice's patch over match it, and the selector then shows the choice, among its choices if the model is the same |
| `Config.ModeKeepsModel` | src/config.rs:245-257 | a mode is asked for with the model that the model selector shows and the effort of the settings |
| `Config.SelectionChangesOnlyItself` | src/config.rs:202-262 | had the backend written a selection's patch, the selector would show the value, every other setting would stay, and so would what every other selector shows, a new model's default effort aside |
| `Config.PresetsGrantNoNetwork` | src/config.rs:236-246 | a sandbox preset short of full access grants neither the network nor further roots |
| `Config.EveryChoiceSelectable` | src/config.rs:82-262 | the catalogue's models, the current model's efforts and tiers and the fixed choices can all be chosen, and are asked for by name |
| `Config.MatchIsShown` | src/config.rs:19-68 | settings that match a selection's patch show the selected value, whoever wrote them |
| `Config.RefusedExactly` | src/config.rs:202-262 | a choice is refused exactly if its selector is not offered, or it is neither a regular choice nor the model or tier that is shown |
| `Config.ReselectExactly` | src/config.rs:202-262 | once a selection has been taken over, exactly the regular choices and the value itself can be selected: what was shown before can be restored exactly if it is regular |
| `Config.CurrentIsOffered` | src/config.rs:82-200 | the shown value is among the choices, except for an irregular effort, approval policy or mode |
| `Config.CurrentNotOffered` | src/config.rs:82-200 | a configuration whose approval policy is shown, is not among the choices and cannot be selected |
| `Config.RegularExactly` | src/config.rs:82-190 | the regular choices are those of the catalogue and the fixed ones, and no others |
| `Config.ShownExactly` | src/config.rs:82-190 | what each selector shows, and when it is offered |
| `Config.EffortShownExactly` | src/config.rs:115-140 | the same for the effort, whose default is the current model's |
| `Config.EntryIsFirst` | src/config.rs:115-119 | the catalogue entry of the current model is the first with its name |
| `Config.NoopChangesNothing` | src/config.rs:19-68 | had the backend applied a suppressed patch, every selector would show the same |
| `Config.NoopIsShown` | src/server/controls.rs:125-135 | a choice whose patch would be suppressed is the one already shown |
| `Barrier.NoopsSeeResolvedSettings` | src/server/controls.rs:110-202 | every decision that a request changes nothing is taken with no older mutation unresolved |
| `Barrier.BarrierOpensOnly` | src/server/controls.rs:145-230 | an unresolved mutation is never overwritten and goes away exactly by a later matching generation, an explicit rejection or a resume |
| `Barrier.ConfirmationShowsPatch` | src/server/controls.rs:167-230 | a mutation is confirmed only after a full snapshot, handled since its request, that matches everything asked for and that no later one took back, unless the settings showed it all at the request |
| `Barrier.MatchingSnapshotResolves` | src/server/controls.rs:204-222 | after a snapshot the barrier is open exactly if the snapshot shows the patch |
| `Barrier.ChoiceIsRecorded` | src/server/controls.rs:167-202 | a choice that the selector does not show is recorded with its whole patch, for every selector |
| `Barrier.ChangeIsRecorded` | src/server/controls.rs:173-199 | so is every value that the settings do not match, under each of the eleven keys that a client can change |
| `Barrier.OtherParametersIgnored` | src/server/controls.rs:173-190 | parameters that are no settings are not waited for |
| `Barrier.NoopNeedsNoSnapshot` | src/server/controls.rs:145-165 | an accepted change is confirmed at once exactly if it asked for nothing new |
| `Barrier.SelectionExactly` | src/server/controls.rs:110-141 | in every run a selection leads to nothing exactly if it is shown, to a refusal exactly if it cannot be selected, and else to the change that asks for it |
| `Barrier.SelectionConfirmed` | src/server/controls.rs:110-165 | a selection that is confirmed is in effect: a full snapshot handled since the request shows it, unless it was shown at the request |
| `Barrier.ResumedSettings` | src/server/lifecycle.rs:198-212 | a resume's reply is laid over the observed settings and leaves nothing unresolved |
| `Barrier.SettingsControl.RecordSettingsChange` | src/server/controls.rs:167-202 | the relevant keys, and no record for a no-op |
| `Barrier.SettingsControl.ReconcileOnce` | src/server/controls.rs:204-222 | one look of the wait loop |
| `Turns.CompletedStaysCompleted` | src/server/events.rs:248-261 | a turn seen to complete is never active again unless a reply revives it, and none does while the backend begins no turn of its own |
| `Turns.RevivedExactly` | src/server/extension_requests.rs:235-247 | in every reachable state a completed turn becomes active again exactly by an "in progress" reply handled after another completion, which for a prompt also finds no active turn |
| `Turns.RevivalHappens` | src/server/lifecycle.rs:341-350 | a run in which that happens |
| `Turns.ReplyExactly` | src/server/extension_requests.rs:235-247 | in every run a reply's turn becomes the active one exactly if its status is in progress, the last completion handled is not its own, and, for a prompt, no turn is active |
| `Turns.LiveTurnIsRecorded` | src/server/lifecycle.rs:341-350 | a reply "in progress" for a turn whose completion has not been handled leaves a turn active, this one unless a prompt found another |
| `Turns.EventExactly` | src/server/events.rs:248-261 | in every run a turn that starts becomes the active one, and one that completes is not any more and is remembered, whatever else is active |
| `Turns.StartBesideActive` | src/server/extension_requests.rs:235-247 | a run in which an unchecked start's reply takes an active turn's place |
| `Turns.QuiescentTurnIsRunning` | src/server/lifecycle.rs:306-352 | when all events are handled and no accepted turn waits, the active turn is the backend's exactly if it is not a revived one |
| `Turns.TurnData.Notification` | src/server/events.rs:248-261 | the two turn notifications |
| `Turns.TurnData.StartReply` | src/server/extension_requests.rs:235-247 | the reply of a start, with and without the check for an active turn |
| `Teardown.AnsweredOnce` | src/server/events.rs:442-499 | in every run, a backend request whose handler ended was sent one response, or none exactly if the run resolved it while pending and its handler took that signal before the client's answer; interactions and subscriptions are bounded |
| `Teardown.ArrivalExactly` | src/server/events.rs:389-450 | in every run an arriving request waits for the client exactly if its session is registered, open and not closing, or it may concern none, it can be translated, and fewer than 128 are pending; else it is answered at once |
| `Teardown.CancellationExactly` | src/server/mod.rs:289-302 | a cancellation, in a close or not, takes out exactly the session's interactions and tells their handlers |
| `Teardown.OwnMoves` | src/server/events.rs:537-590 | what a request's own steps do to its handler and to the responses sent |
| `Teardown.OthersMove` | src/server/mod.rs:289-302 | what all other steps do: only a cancellation of its session signals a waiting handler |
| `Teardown.ClosingIsQuiet` | src/server/mod.rs:289-302 | from a close's cancellation until a resume no interaction of the session is pending |
| `Teardown.CloseLeavesNothing` | src/server/lifecycle.rs:354-377 | after a close, until registered or resumed again, the session is absent and not open, has no pending interaction, owns no subscription, and has leases exactly if its creation installed them after they were taken |
| `Teardown.LeasesExactly` | src/server/lifecycle.rs:42-43 | after a close took the leases, the session has leases exactly if InstallLeases follows, which needs a creation still under way |
| `Teardown.LateLeasesHappen` | src/server/lifecycle.rs:42-43 | a run in which a closed session has leases |
| `Teardown.HalfResumedHappens` | src/server/lifecycle.rs:162-170 | a run in which a failed fence leaves a session registered and open that was never resumed |
| `Teardown.ResumeEndsExactly` | src/server/lifecycle.rs:165-236 | in every run how each outcome of a resume leaves the session: registered, open, closing, leases |
| `Teardown.DetachedTakesNothing` | src/server/lifecycle.rs:174-182 | a detached session takes no request and no stream until the reply |
| `Teardown.StreamExactly` | src/server/resources.rs:12-63 | a subscription is claimed exactly if its id is free and fewer than 1024 are claimed, by an open session, and how it ends |
| `Teardown.EverySessionCanClose` | src/server/lifecycle.rs:354-377 | from every reachable state a registered session whose gate is free can be closed by its close's steps alone |
| `Teardown.Callbacks.Insert` | src/server/events.rs:389-450 | the bounded entry that the arrival step makes, under one lock |
| `Teardown.Callbacks.CancelInteractions` | src/server/mod.rs:289-302 | removes and cancels exactly the session's interactions |
| `Teardown.Callbacks.ClaimSubscription` | src/server/resources.rs:24-38 | the claim that the stream step makes |
| `Rpc.RepliesBelong` | src/backend/mod.rs:147-181 | a future holds only a response frame of its own id; a waiting one has had no answer since it was entered; requests in flight are bounded, and none after the disconnection |
| `Rpc.ResolvesOnce` | src/backend/mod.rs:248-261 | an outcome that a future has taken never changes |
| `Rpc.ResponseExactly` | src/backend/transport.rs:201-228 | a response resolves the waiting future of its id and touches nobody else; a late one touches nobody |
| `Rpc.EventsInOrder` | src/backend/transport.rs:149-200 | the channel receives the events of the frames in order with their numbers, none lost but the one that stopped the reader; exactly one terminal event, and always room for it |
| `Rpc.RepliesFollowEvents` | src/backend/transport.rs:149-229 | when a reply numbered S is visible, every event numbered below S is in the channel |
| `Rpc.AdmittedExactly` | src/backend/mod.rs:152-168 | in every run a request is admitted exactly if the connection has not ended and fewer than the limit wait; the reason otherwise |
| `Rpc.ReadingGoesOnExactly` | src/backend/transport.rs:110-200 | in every run the reader goes on exactly after a numbered, well-formed frame that is no event, or an event somebody listens to and the channel has room for |
| `Rpc.DisconnectFails` | src/backend/transport.rs:254-262 | the end of the connection fails every waiting request and touches no other |
| `Rpc.ChannelIsUnreadEnd` | src/backend/transport.rs:191-199 | in every run the channel holds the unread end of what was put into it |
| `Rpc.TerminalIsLast` | src/backend/transport.rs:262-275 | the terminal event is put behind all others, once |
| `Rpc.ReturnsReply` | src/backend/mod.rs:173-181 | a future returns the reply that it finds; one that gives up leaves no entry |
| `Rpc.CallShape` | src/backend/transport.rs:160-190 | which frames with a method are notifications and calls, and what is read from them |
| `Rpc.ErrorShape` | src/backend/transport.rs:201-218 | which error values are accepted, as objects and as arrays, and what is read from them |
| `Rpc.ResponseShape` | src/backend/transport.rs:201-218 | a response is accepted exactly if it has a 64-bit id and one of result and error (section 5 of the JSON-RPC 2.0 Specification) |
| `Rpc.WrittenCallsReadBack` | src/backend/mod.rs:173-185 | requests and notifications are read back as what they were |
| `Rpc.WrittenResponsesReadBack` | src/backend/mod.rs:188-203 | responses are read back exactly if the id is a 64-bit number and an error has a 64-bit code and no null data |
| `Rpc.Connection.Enter` | src/backend/mod.rs:152-168 | disconnection and bound checked, entry made under one lock |
| `Rpc.Connection.TrySend` | src/backend/transport.rs:191-199 | room is what the reserved slot leaves |
| `Rpc.Connection.Dispatch` | src/backend/transport.rs:149-229 | one frame: numbering, classification, event or reply |
| `Rpc.Connection.Drain` | src/backend/transport.rs:254-262 | every waiting request fails and the mark stays |
| `Framing.BoundedLine` | src/acp_transport.rs:63-97 | the next line of the byte stream, whatever its fills: limit without the newline, one trailing carriage return dropped, partial last line kept |
| `Framing.ReadLines` | src/acp_transport.rs:36-41 | all lines up to the end or the first refusal |
| `Framing.ReadFrames` | src/backend/transport.rs:110-147 | frames and verdict of the byte stream, whatever its fills |
| `Framing.FillsDoNotMatter` | src/acp_transport.rs:63-97 | two readers over the same bytes agree on lines, frames and errors |
| `Framing.WrittenLinesReadBack` | src/acp_transport.rs:42-58 | reading what the sink wrote gives the lines exactly if none has a newline or ends with a carriage return |
| `Framing.WrittenFramesReadBack` | src/backend/mod.rs:205-229 | frames written within the limit are read back exactly if none has a newline |
| `Framing.SplitIs` | src/acp_transport.rs:76-90 | the first line is determined by what follows it |
| `Framing.LineExactly` | src/acp_transport.rs:63-97 | for every ending of a line: refused exactly if longer than the limit, its carriage return included, or no text; else what precedes the ending |
| `Framing.Sink.Send` | src/acp_transport.rs:42-58 | the line and its newline, or a refusal |
| `Ownership.OwnershipSound` | src/server/ownership.rs:12-91 | for all interleavings of walks and session changes and any parent graph: cache entries name proper ancestors and are at most 4096, answers name the thread or an ancestor, reported cycles exist, no walk passes more than 32 threads |
| `Ownership.AnswerIsSession` | src/server/ownership.rs:36-59 | the named root is registered at that moment and is the object found open; the cache then names only registered roots |
| `Ownership.WalkExactly` | src/server/ownership.rs:12-91 | an undisturbed walk names a root exactly if the shortest way up to a hit has at most 32 threads, ends at that root, and fits the cache |
| `Ownership.FirstHitDistinct` | src/server/ownership.rs:60-63 | a way up that reaches a hit never trips the cycle check |
| `Ownership.WalkEndsExactly` | src/server/ownership.rs:60-91 | how an undisturbed walk ends that finds nothing: not owned, unreadable, a cycle, or too deep |
| `Ownership.SoloWalk` | src/server/ownership.rs:12-91 | the interleaved steps of one walk, taken alone, have the walk's answer and leave what it leaves |
| `Ownership.FoundAgain` | src/server/ownership.rs:16-35 | every thread of a kept walk finds the session at its first look while that stays registered and no other walk over the thread is kept |
| `Ownership.CacheFullExactly` | src/server/ownership.rs:43-58 | a walk finds the cache full exactly if its way does not fit beside the entries of registered sessions within 4096 |
| `Ownership.Registry.OwnerForThread` | src/server/ownership.rs:12-91 | the loop computes the walk and caches exactly the threads passed |
| `Ownership.Registry.RememberRoot` | src/server/ownership.rs:39-58 | the second locked region: identity check, purge, limit, insertion |
| `Ownership.ChildItemsDistinct` | src/projection/children.rs:8-10 | within a thread the identity determines the item |
| `Ownership.ChildItemsCollideExactly` | src/projection/children.rs:8-10 | two threads can share an identity exactly if they are equal or one with a colon begins the other |
| `Replay.ReplayComplete` | src/server/history.rs:13-71 | a successful replay shows exactly the pages it consumed, in order, as whole sequences: root items, root turns, one block for every listed descendant and no other; shown plus remaining is the limit |
| `Transcripts.ReplayExactly` | src/server/history.rs:13-71 | a replay succeeds exactly if the replies begin with those of a plan within its limits: whole pages of the root's items and turns, and two listings with whole pages for each newly named descendant; it takes just those |
| `Replay.ShownInOrder` | src/server/history.rs:97-117 | what a successful replay shows are the entries of the replies it took, all of them, in order |
| `Replay.ItemsAreCutExactly` | src/server/history.rs:97-107 | the root's items under their own ids and a descendant's under the thread's and theirs get the sequence of the last page that lists them |
| `Replay.TurnsAreNotCut` | src/server/history.rs:97-117 | the turns' diagnostics leave the cutoffs alone |
| `Replay.PagingExactly` | src/server/history.rs:81-128 | paging succeeds exactly if the replies begin with a whole sequence within page limit and budget, and reads that and no more |
| `Replay.CutoffIsLastPage` | src/server/history.rs:99-107 | an item's cutoff is the sequence of the last page with it, or unchanged |
| `Replay.Replayer.ReplayThread` | src/server/history.rs:73-129 | the paging loop |
| `Replay.Replayer.ReplayPage` | src/server/history.rs:90-117 | budget, entries and cutoffs of one page |
| `Replay.Replayer.ReplayListed` | src/server/history.rs:28-68 | the listing loop with its filter, limits and ownership check |
| `Replay.Replayer.ReplayHistory` | src/server/history.rs:13-71 | the whole replay |
| `Descendants.Closer.CloseDescendants` | src/server/teardown.rs:12-142 | success means at most 32 rounds, each a whole listing whose findings were all closed, the last one without findings, and at most 4096 threads; every request made is accounted for |
| `Closings.CloseRoundsExactly` | src/server/teardown.rs:12-142 | the close succeeds exactly if the replies begin with those of complete rounds, at most 32, of which just the last finds nothing, and takes just those |
| `Closings.ListingExactly` | src/server/teardown.rs:15-56 | a round's listing succeeds exactly with a whole listing of at most 64 pages that never stands still, and room for what it finds |
| `Closings.CloseExactly` | src/server/teardown.rs:57-136 | a child's close succeeds exactly with a talk that closes it |
| `Descendants.NothingLeft` | src/server/teardown.rs:48-56 | then every thread of the last listing is the root, was closed, or is not the root's |
| `Descendants.ClosedOnceExactly` | src/server/teardown.rs:27-34 | no descendant is closed twice exactly if no single round finds one twice |
| `Descendants.ClosedTwiceHappens` | src/server/teardown.rs:23-39 | rounds in which one is |
| `Descendants.FoundOnceExactly` | src/server/teardown.rs:23-39 | a round finds a thread twice exactly if its listing has it twice |
| `Descendants.FoundIsEligible` | src/server/teardown.rs:27-34 | a round finds exactly the listed threads that are not the root, not closed before and owned by the root |
| `Descendants.Closer.Discover` | src/server/teardown.rs:15-47 | one round's paging, from page to page to the end |
| `Descendants.Closer.Collect` | src/server/teardown.rs:23-39 | one page, within the limit on threads closed and to be closed |
| `Descendants.Closer.InterruptChild` | src/server/teardown.rs:58-104 | an active child is interrupted in its turn in progress or during startup; a failed interrupt stands only if the child has become inactive |
| `Descendants.Closer.CloseChild` | src/server/teardown.rs:57-136 | a child is last seen inactive, then cleaned, then unsubscribed, and awaited exactly if it was active |
| `Schema.NormalizeExactly` | src/interactions/elicitation.rs:236-268 | rewriting a schema changes no verdict exactly if every rewritten property is compatible with its older `oneOf`, as every one without it is, or the form requires something that cannot be filled in |
| `Schema.SatisfiableExactly` | src/interactions/schema.rs:16-75 | some content satisfies a form exactly if every required key is a string that names a property which accepts some value |
| `Schema.ScalarAcceptedExactly` | src/interactions/schema.rs:38-79 | numbers, integers, texts and booleans are accepted exactly within their bounds and choices |
| `Schema.ListAcceptedExactly` | src/interactions/schema.rs:60-97 | lists of texts are accepted exactly with their number, choices and uniqueness |
| `Schema.NoContentIsEmpty` | src/interactions/schema.rs:16-24 | no content is the empty content; other content that is no object is rejected |
| `Schema.NormalizedExactly` | src/interactions/elicitation.rs:236-258 | a schema is rewritten exactly if it is an object's and every legacy list has a name for each value |
| `Schema.TitlesKept` | src/interactions/elicitation.rs:246-265 | the rewritten property offers the legacy values under their names |
| `Schema.NormalizeAccepts` | src/interactions/schema.rs:81-97 | for one property: what rewriting keeps and what it forgets |
| `Schema.NormalizeKeepsAccepted` | src/interactions/elicitation.rs:236-268 | rewriting never rejects what was accepted |
| `Schema.NormalizeCanChange` | src/interactions/elicitation.rs:246-265 | a form whose verdict changes |
| `Schema.Normalize` | src/interactions/elicitation.rs:236-268 | the loop over the properties |
| `Schema.AnswersFitForm` | src/interactions/elicitation.rs:45-78 | the answers that are accepted are exactly those that fit the form that was shown |
| `Schema.TranslateQuestions` | src/interactions/elicitation.rs:100-168 | the loop over the questions, with its refusals |
| `Schema.TrackedDistinct` | src/interactions/elicitation.rs:113-156 | one tracked question for each, with distinct ids |
| `Schema.TrackedExactly` | src/interactions/elicitation.rs:113-156 | questions are asked exactly if each can be and no id occurs twice, each with its own labels; they are left to others exactly if the first that cannot be asked is secret |
| `Schema.ResolveQuestions` | src/interactions/elicitation.rs:45-78 | one answer for each question and no more, each of an offered choice |
| `RuntimeTree.Verify` | src/backend/embedded.rs:216-305 | accepts exactly the trees that match the manifest |
| `RuntimeTree.MatchesExactly` | src/backend/embedded.rs:222-258 | a matching tree has exactly the manifest's files and their directories |
| `RuntimeTree.OnlyExpected` | src/backend/embedded.rs:237-260 | the worklist reaches every entry |
| `RuntimeTree.Extract` | src/backend/embedded.rs:131-156 | extraction succeeds exactly if no file is in the way of another, and makes just those files |
| `RuntimeTree.InstallVerifies` | src/backend/embedded.rs:131-161 | what was extracted passes verification exactly if the archive is what the manifest describes |

## Left out

- Process spawning, pipes, the async runtime, HTTP routing and server-sent events, and the ACP library's types.
- Rendering of items: titles, content blocks, diagnostics texts. An update replaces an entity or appends to it.
- Reasoning parts and terminal output that a snapshot omits: the model's snapshots carry the whole entity.
- Failures of single writes to the client; a sent update is taken as received.
- Requests that concern no thread, and requests handled after their session object was replaced: the identity checks by pointer on detached session objects are not modelled beyond `Ownership` and `Teardown`.
- The close of descendants is a module of its own; in `Teardown` it is a stage that may fail. The purge of the ownership cache at its end is not modelled.
- Archive and delete through the extension interface, which take the same steps as a close in almost the same order.
- The pump's own handling of the terminal event, which clears the active turn of every session, idles it and cancels its interactions.
- The error replies to backend requests that were buffered by a setup that then failed; only their removal is modelled.
- That a resume of a registered session stops all its subscriptions before it reopens it: in `Teardown` single stops are steps, and nothing requires them.
- Liveness: a worker, a disconnect attempt or a setting that never finishes is a legal run.
- Sessions among the descendants of a session: a thread has one owner for good, its own session aside, and item ids of different threads are taken as different (but see `Ownership.ChildItemsCollideExactly`).
- Events that the pump loses, in `Reconcile`: its worker handles every frame of the session's threads, which is what `NoLoss` proves with its exceptions.
- Notifications that a session drops because it is not open, between a resume's unsubscribe and its reply: the workers of `Reconcile` and `Overlay` handle every frame.
- Paths in settings compare as text; the platform's notion of equal paths is not modelled.
- Framing.BoundedLine: I/O errors of the reader are not modelled, and sums of sizes do not saturate, which no buffer in memory can reach.
- Schema.NormalizeExactly: numbers are whole, so the rounding of 64-bit floats in `minimum` and `maximum` is not modelled.
- RuntimeTree.Verify: the digest is a function parameter, so nothing is said about collisions; symbolic links count as entries that are refused; files that change during the walk are not modelled.
- Ownership.WalkExactly: is about walks that nobody disturbs; disturbed walks are covered by `Ownership.OwnershipSound`, which does not say that they find an owner.
- Rpc.EventsInOrder: does not say that the terminal event is the last one, since aborting the reader does not wait for it.
