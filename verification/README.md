# Verified models of OpenZues

Dafny models of the parts of OpenZues that keep state or recurse, with proofs about every run, every value or
every interleaving. `dafny verify dfyconfig.toml` checks everything.

Code that computes a value is a function; code that changes things is a method, and an object with fields is a
class. Each method is proved equal to a function of the state, usually one step of a state machine `Next`, and
the properties are proved about that function and lifted to runs. What such a function computes is also stated in terms
of the given texts, fields and steps alone, without naming it, in `WakeReasons`, `SessionEffects`, `PromptReasons`,
`LocationRecords`, `DeviceGrants`, `PromptBlocks` and `ForumEffects`.

| files | what they model |
|---|---|
| `WakeQueue`, `WakeOrder`, `WakeReasons`, `WakeDatabase` | the persistent gateway wake queue: create, claim, release, dispatch |
| `SessionStore`, `SessionEffects`, `SessionTable` | the bounded table of ACP sessions with its run index |
| `PromptLifecycle`, `PromptEvolution`, `PromptOutcome`, `PromptViews`, `PromptSafety`, `PromptRaces`, `PromptReasons`, `PromptAgent`, `Streaming`, `RateLimit` | prompts in flight, their event handlers, streaming and the session rate limit |
| `ToolLocations`, `LocationCollector`, `LocationExtract`, `LocationRecords` | collecting the file locations a tool call mentions |
| `SortedText`, `DeviceProfile`, `DeviceTokens`, `DeviceGrants`, `DeviceTokenStore` | device bootstrap profiles and tokens |
| `SessionKeys`, `Bindings`, `BindingResolver` | configured conversation bindings and their session keys |
| `JsonRpc`, `RpcClient` | matching JSON-RPC responses to calls |
| `PromptText`, `PromptBlocks` | prompt text, its size limit, and control character escapes |
| `Slugs`, `Forum`, `ForumEffects`, `ForumDatabase` | fresh slugs and post ids of the forum store |
| `PyText`, `PyDict` | the Python string operations and the insertion-ordered dict the others share |

## Conventions

* Each wake method is one transaction. A row keeps a ghost account of the create calls it stands for (`holder`).
* The prompt handlers are cut wherever they wait, for the gateway or for the client to take a notification, and other
  handlers may run there. A handler that waits is a task in a multiset. A reconnect asks about its prompts in any
  order and all at once, which covers the order of the original loop. Run ids are fresh. The retry of a send without
  provenance is part of the send.
* A run is sequential if a session is prompted only after its earlier prompts have returned, and no cancel resumes to
  drop a later prompt that is running. It is orderly if, besides, no late handler displaces a later prompt. The
  last two conditions are exact: `PromptViews.CancelKeepsViewsIff` and `PromptSafety.StrandsIff`.
* The lengths of what was sent are the lengths of the recorded text.
* Clock readings, random tokens, digests, key decoding and `file://` URL decoding are parameters. A digest is any
  function to 16 hexadecimal digits. Key decoding is any function whose results look like unpadded URL-safe base64
  and, where they contain BEGIN, are not themselves a key.
* An exception is an empty or false result.

## What the proofs found

* Wake order: "a row shows the latest of the most urgent requests" needs at most one outstanding claim per target.
  `WakeOrder.OverlappingClaimsLoseLatest` is a run with two that shows an older one; `WakeOrder.WinnerIsLatestIff`
  is the exact condition of one merge.
* Three handlers can drop the wrong prompt when they resume late: `_finish_prompt`, called by a reconnect or by a
  final event whose text was on its way to the client, and the end of `cancel` pop whatever is pending for the
  session. `PromptSafety.LateAbandonsIff` says exactly whose future this makes unresolvable, streaming prompts and those
  still being sent included; such a call waits for ever, unless it is still being sent and that fails. `PromptRaces`
  gives a run for each handler.
* A prompt that is out of the table may still send text: `PromptEvolution.SilentIff` says exactly when.
* Starting a run over another one breaks the run index: `SessionStore.SetRunAgreesIff`.
* A stored location list whose paths are normalised and mark nothing comes back from extraction if and only if all but
  its last entry fit in 98 nodes (`LocationExtract.ReextractsIff`). `SameListIff` and `SameLocationsIff` are the
  conditions for any list, and `MarkerPathGrows` is one that does not come back.
* `normalize_account_id` is not idempotent (`SessionKeys.AccountIdIdempotentIff`). Three times is enough, but twice is
  not for some texts that are not ASCII (`AccountIdNeedsThree`). The resolvers apply it twice, so just for these, and
  for channels with colons, keys do not lead back: `BindingResolver.KeyLeadsBackIff`. And a binding need not match a
  conversation that names its own account: `SameAccountMatchesIff`.
* The weight of 1000 orders matches as intended up to 1000 bindings, and in general under the condition of
  `BindingResolver.WeightIsLexicographicIff`; `WildcardWins` is a configuration of 1001 in which it does not.
* A JSON-RPC call that fails to send leaves its future unresolved until a response with its id or a close, and
  registered until a close (`JsonRpc.FailedSendUnresolvedIff`), even if it was made after closing
  (`CallAfterCloseLeaks`).
* The fixed rate limit window lets through twice its maximum in an interval of one window, and never more.
* Escaping control characters is not injective: every text with a control character, or with the code of one spelled
  out, shares its escaped form with another (`PromptText.AmbiguousIff`).

## Model

| member | source | states |
|---|---|---|
| WakeQueue.NoWakeIsLost | src/openzues/database.py:3565-3798 | Over every run of create, claim, release and dispatch, in any order: the calls accepted are exactly the creates, each is held by exactly one row still in the table, that row has its mode, agent and session and at least its priority, and every row shows the text and reason of a call it holds. |
| WakeQueue.NextConserves | src/openzues/database.py:3565-3798 | One step of any kind keeps that conservation. |
| WakeQueue.RunConserves | src/openzues/database.py:3565-3798 | Any run keeps it from any conserving state, not only the empty table. |
| WakeQueue.RunAccepts | src/openzues/database.py:3565-3644 | The accepted calls of a run are the ones before it and its creates, in order. |
| WakeQueue.CoalesceConserves | src/openzues/database.py:3597-3625 | Merging rows of one key into the oldest, shown as the (priority, id) maximum, loses no call and lowers no priority. |
| WakeQueue.StoredReasonKeepsPriority | src/openzues/database.py:34-47 | Storing the normalised reason instead of the given one does not change its priority, so it may be normalised again on every comparison. |
| WakeReasons.StoredReasonIff | src/openzues/database.py:34-36 | Exactly what is stored as the reason: `wake` for a missing or blank one, and otherwise the given text without its outer white space. |
| WakeReasons.CreateShows | src/openzues/database.py:39-3644 | Which reason displaces which, by their texts: after a create the oldest pending row of the key shows the new wake if and only if its reason displaces every pending one (manual, exec-event and hook: displace all; others all but those; interval interval and retry; retry only retry), and otherwise the pending one that displaces the rest, the later of equals; all other rows stay. |
| WakeReasons.StatusIff | src/openzues/database.py:3738-3798 | Exactly which steps change a status: a row is dispatched if and only if it was just dispatched, or was before and is not released; and claimed if and only if a claim finds it oldest in its modes, or it was and is neither released nor dispatched. |
| WakeOrder.RowsShowLatestOfHighest | src/openzues/database.py:3597-3625 | With at most one outstanding claim per mode, agent and session, every row of every reachable table shows the latest of the highest-priority calls it holds, also after a release leaves two pending rows to merge. |
| WakeOrder.WinnerIsLatestIff | src/openzues/database.py:61-81 | The exact condition for one merge, in terms of the account of create calls that each row carries in the model: picking the (priority, id) maximum shows the latest highest-priority call if and only if no other row of that priority holds a later one. No caller can read that account; what a caller can keep is one outstanding claim per key, which implies it (`RowsShowLatestOfHighest`). |
| WakeOrder.OverlappingClaimsLoseLatest | src/openzues/database.py:3660-3783 | The claim discipline is needed: with two claims of one key outstanding, a concrete run of eight calls ends with a row showing an older text although it holds a later call of the same priority. |
| WakeOrder.CoalesceSound | src/openzues/database.py:3706-3736 | Merging all pending rows of a key keeps the order property and conservation together. |
| WakeOrder.NextSound | src/openzues/database.py:3565-3798 | Each step within the claim discipline keeps them. |
| WakeOrder.WaitIsBounded | src/openzues/database.py:3668-3768 | Without releases, a wake whose row has k smaller pending ids is taken within k+1 unfiltered claims, whatever creates, filtered claims and dispatches come between. |
| WakeOrder.WaitStep | src/openzues/database.py:3578-3644 | No step puts anything ahead of a waiting wake, and an unfiltered claim takes the wake or something ahead of it. |
| WakeOrder.CreateLeavesOne | src/openzues/database.py:3578-3644 | A create leaves exactly one pending row of its key, the one whose id it returns, and that row holds the new call. |
| WakeOrder.ClaimLeavesNone | src/openzues/database.py:3668-3768 | A claim takes the oldest pending row in the given modes, leaves no pending row of its key, and leaves all other keys alone. |
| WakeDatabase.Database.SelectPending | src/openzues/database.py:3578-3586 | The query returns exactly the pending ids in the given modes, in ascending order. |
| WakeDatabase.Database.MatchingTargets | src/openzues/database.py:3587-3595 | Keeps exactly the rows whose agent and session match the target. |
| WakeDatabase.Database.SelectWinner | src/openzues/database.py:61-81 | The one-pass loop returns text, reason and priority of the row that outranks all others by (priority, id). |
| WakeDatabase.Database.CreateGatewayWakeRequest | src/openzues/database.py:3565-3644 | Select, merge, update and delete, or insert, together are one `Create` step of the specification and return its id. |
| WakeDatabase.Database.MergeDuplicates | src/openzues/database.py:3706-3736 | Several pending rows of a key become the oldest, shown as the winner; a single one is left alone. |
| WakeDatabase.Database.ClaimNextGatewayWakeRequest | src/openzues/database.py:3660-3768 | A claim is one `Claim` step; it returns the claimed row, or nothing exactly when no row is pending in the modes. |
| WakeDatabase.Database.ReleaseGatewayWakeRequest | src/openzues/database.py:3770-3783 | A release is one `Release` step. |
| WakeDatabase.Database.MarkGatewayWakeRequestDispatched | src/openzues/database.py:3785-3798 | A dispatch is one `Dispatch` step. |
| SessionStore.CreateOutcome | src/openzues/services/acp_session_store.py:73-104 | Creating a session under a new id fails if and only if, after reaping, the table is full of active sessions. Otherwise no expired idle session is left, the new one is there, and at most one other is gone: an idle one touched no later than any other. |
| SessionStore.CreateKeepsActive | src/openzues/services/acp_session_store.py:46-104 | A session with an active run survives every create unchanged, unless it is the one created again, and no create starts a run. |
| SessionStore.ReapIdleKeeps | src/openzues/services/acp_session_store.py:46-54 | Reaping removes exactly the expired idle sessions and calls no abort handle. |
| SessionStore.OldestIdleIsLru | src/openzues/services/acp_session_store.py:56-71 | Eviction picks the idle session with the least `lastTouchedAt`, the first inserted of several, and none if and only if every session is active. |
| SessionEffects.ReapedIff | src/openzues/services/acp_session_store.py:46-54 | Reaping drops exactly the sessions with neither run nor abort handle that were last touched at least the time to live ago. |
| SessionEffects.TimeIsLastTouch | src/openzues/services/acp_session_store.py:30-162 | Over every run, the time of a session is the clock reading of the last call that touched it: a create, a get, setting or clearing its run, or a cancel that had something to cancel. |
| SessionEffects.CreatedIs | src/openzues/services/acp_session_store.py:73-104 | A created session has the given key and directory, the present time and nothing to run; one that was there keeps its age and its run, and no other session changes. |
| SessionEffects.StartedRunEnds | src/openzues/services/acp_session_store.py:124-162 | A started run is found under its id; clearing it calls nothing, cancelling it calls its handle exactly once, and either leaves the session idle and the id unknown. |
| SessionEffects.GetAndRemove | src/openzues/services/acp_session_store.py:30-113 | A get changes nothing but the time; dropping a session with a handle calls it and forgets its run. |
| SessionStore.SetRunAgreesIff | src/openzues/services/acp_session_store.py:124-136 | Starting a run keeps the run index and the sessions in step if and only if the session has no other run and no other session has this one. |
| SessionStore.ClearRunAgrees | src/openzues/services/acp_session_store.py:138-147 | Clearing a run keeps them in step. |
| SessionStore.NextAgrees | src/openzues/services/acp_session_store.py:73-162 | Every operation keeps them in step, starting a run under the condition above. |
| SessionStore.RunKeepsStore | src/openzues/services/acp_session_store.py:13-162 | Over every run, whatever the calls and the clock, the table stays within its limit; and index and sessions stay in step if runs are started under that condition. |
| SessionTable.InMemoryAcpSessionStore.constructor | src/openzues/services/acp_session_store.py:14-25 | Starts empty, with at least one session allowed and at least one second of idling. |
| SessionTable.InMemoryAcpSessionStore.RemoveSession | src/openzues/services/acp_session_store.py:33-44 | Removing a session drops it from the index and calls its abort handle if it has one. |
| SessionTable.InMemoryAcpSessionStore.ReapIdleSessions | src/openzues/services/acp_session_store.py:46-54 | The loop over a snapshot of the keys is the specification's reap. |
| SessionTable.InMemoryAcpSessionStore.FindOldestIdle | src/openzues/services/acp_session_store.py:56-68 | The loop finds the session `OldestIdleIsLru` is about. |
| SessionTable.InMemoryAcpSessionStore.EvictOldestIdleSession | src/openzues/services/acp_session_store.py:56-71 | Removes that session and says whether there was one. |
| SessionTable.InMemoryAcpSessionStore.CreateSession | src/openzues/services/acp_session_store.py:73-104 | Update in place, or reap, evict and insert, or fail: the specification's create. |
| SessionTable.InMemoryAcpSessionStore.GetSession | src/openzues/services/acp_session_store.py:109-113 | A hit touches the session. |
| SessionTable.InMemoryAcpSessionStore.GetSessionByRunId | src/openzues/services/acp_session_store.py:115-122 | Goes through the index, and touches what it finds. |
| SessionTable.InMemoryAcpSessionStore.SetActiveRun | src/openzues/services/acp_session_store.py:124-136 | Records run and abort handle in session and index; nothing for an unknown session. |
| SessionTable.InMemoryAcpSessionStore.ClearActiveRun | src/openzues/services/acp_session_store.py:138-147 | Drops them from both. |
| SessionTable.InMemoryAcpSessionStore.CancelActiveRun | src/openzues/services/acp_session_store.py:149-162 | Calls the abort handle, then clears; nothing without a handle. |
| Streaming.StreamingIsFaithful | src/openzues/services/acp_agent.py:780-822 | While each snapshot extends the one before, the chunks sent concatenate to exactly the right-stripped newline join of the latest. |
| Streaming.BlocksExtendGrow | src/openzues/services/acp_agent.py:788-797 | Blocks that are only added to, or whose last one grows, do make a snapshot that extends the one before. |
| Streaming.SentIsAsLongAsLongest | src/openzues/services/acp_agent.py:798-822 | For arbitrary snapshots, as many characters have been sent as the longest stripped snapshot has. |
| Streaming.ChunkCompletesIff | src/openzues/services/acp_agent.py:798-822 | A chunk brings the client up to date if and only if what it already has is a prefix of the new snapshot. |
| Streaming.SentOnlyGrows | src/openzues/services/acp_agent.py:798-822 | What has been sent is never taken back. |
| Streaming.TextPartsAre | src/openzues/services/acp_agent.py:780-793 | The texts of a snapshot are those of exactly its text blocks, in order. |
| Streaming.ThoughtPartsAre | src/openzues/services/acp_agent.py:780-793 | Its thoughts are those of exactly its thinking blocks, in order. |
| Streaming.FullTextIs | src/openzues/services/acp_agent.py:794-812 | What is shown of a snapshot is its joined parts up to the last character that is not white space. |
| PromptEvolution.ResolvedOnceThenOut | src/openzues/services/acp_agent.py:426-837 | On every run with fresh run ids, however the handlers interleave: a future that has a result keeps it; a finished, cancelled or failed prompt is out of the table; and a prompt out of the table never returns to it and sends no more thoughts. |
| PromptEvolution.SilentIff | src/openzues/services/acp_agent.py:780-822 | Exactly which prompts may still send text: one out of the table sends none on any later run if and only if no handler that is waiting for the client to take its thoughts still holds new text of it. |
| PromptEvolution.StaleEventIgnored | src/openzues/services/acp_agent.py:580-778 | A chat event naming the run of a prompt that is no longer in the table changes nothing at all. |
| PromptEvolution.EventFindsItsPrompt | src/openzues/services/acp_agent.py:767-778 | An event that names the run of a pending prompt finds that prompt, past any others with the same session key. |
| PromptEvolution.StreamsFaithfully | src/openzues/services/acp_agent.py:780-822 | For every prompt of every run: the text and thoughts sent for it are what the streaming theorems say of the snapshots handled for it, also when events of one prompt overlap. |
| PromptEvolution.NextKeeps | src/openzues/services/acp_agent.py:426-837 | Every step keeps the tables consistent and lets prompts only evolve as above. |
| PromptReasons.ReasonHasCause | src/openzues/services/acp_agent.py:487-837 | Over every run, the stop reason of a prompt begun in it goes back to a step of the run: `cancelled` to an aborted event for it or a cancel, `refusal` to an error event of kind refusal, `max_tokens` to a final event that says so, and `end_turn` to another final or error event or to a reconnect that hears that the run is over. |
| PromptReasons.EventEnds | src/openzues/services/acp_agent.py:602-837 | And the other way: such an event, once the snapshot is there, resolves a pending prompt with just that reason. |
| PromptReasons.CancelReason | src/openzues/services/acp_agent.py:524-526 | A cancel that resumes resolves its prompt as `cancelled`. |
| PromptReasons.ReplyReason | src/openzues/services/acp_agent.py:490-837 | A reconnect that hears that the run is over resolves it as `end_turn`. |
| PromptReasons.BeginEffect | src/openzues/services/acp_agent.py:426-458 | A prompt that begins is its session's pending one and its run is found under its id, after the handle of the run before it has been called; one that cannot be built leaves nothing behind. |
| PromptReasons.CancelEffect | src/openzues/services/acp_agent.py:502-523 | A cancel calls the handle of the session's run, leaves it none, and takes up the pending prompt. |
| PromptReasons.SendEffect | src/openzues/services/acp_agent.py:456-480 | A failed send takes the prompt out of table and store and calls no handle; an accepted one changes nothing else. |
| PromptOutcome.ResolvableIff | src/openzues/services/acp_agent.py:426-837 | Exactly which futures can still be resolved: some run with fresh run ids resolves a prompt's future, or it is resolved already, if and only if the prompt is not hopeless, that is, unresolved, out of the table, and with no handler but events that only stream and reconnect questions about a failed send. |
| PromptOutcome.HopelessForGood | src/openzues/services/acp_agent.py:426-837 | A hopeless prompt stays hopeless on every run; so the call of one that was sent waits for ever. |
| PromptOutcome.NextHopeless | src/openzues/services/acp_agent.py:426-837 | No single step takes a prompt out of that state. |
| PromptViews.ThreeViewsAgree | src/openzues/services/acp_agent.py:426-837 | Over every run whose sessions are prompted one prompt at a time and whose cancels resume only when they may, whatever answers and notifications come late: the run index and the sessions' active runs name each other, and a run is its session's active run if and only if it is pending and not being cancelled. |
| PromptViews.NextViews | src/openzues/services/acp_agent.py:426-837 | Every such step keeps that. |
| PromptViews.CancelKeepsViewsIff | src/openzues/services/acp_agent.py:502-526 | The condition on cancels is exact: one that resumes leaves every active run pending if and only if its prompt is already resolved, or no later prompt has its place, or that later prompt is being cancelled too. |
| PromptViews.NextOneAtATime | src/openzues/services/acp_agent.py:426-480 | Prompting only after the earlier calls have returned keeps at most one call per session open, in every interleaving. |
| PromptSafety.LateAbandonsIff | src/openzues/services/acp_agent.py:487-837 | Exactly whose future a late handler (the rest of a final event, the end of a cancel, a reconnect that hears the run is over) makes unresolvable: that of the prompt that has its own prompt's place, sent or still sending, streaming or not, if that one has no handler that could resolve it; and nobody else's. |
| PromptSafety.StrandsIff | src/openzues/services/acp_agent.py:426-837 | While none is stranded, any step leaves a prompt that events cannot reach and no handler is about to resolve if and only if it is a late handler's and a later prompt without such a handler has the place. |
| PromptSafety.NoneStrandedInOrder | src/openzues/services/acp_agent.py:426-837 | Over every orderly run from the start no prompt is stranded, and the views agree. |
| PromptSafety.NextGood | src/openzues/services/acp_agent.py:426-616 | Every orderly step keeps both. |
| PromptSafety.QuietMeansPending | src/openzues/services/acp_agent.py:426-526 | When no handler is waiting, the unresolved prompts are exactly those in the table, and exactly those whose run their session has active. |
| PromptRaces.LateReplyAbandons | src/openzues/services/acp_agent.py:444-500 | It happens: from any state with an idle session there is a run, orderly but for its last step, after which a late `agent.wait` answer has dropped the next prompt, which was accepted and stays unresolved on every later run. |
| PromptRaces.LateReplyAbandonsStreaming | src/openzues/services/acp_agent.py:444-822 | The same while text of that next prompt is on its way to the client. |
| PromptRaces.LateCancelAbandons | src/openzues/services/acp_agent.py:444-526 | The same with a cancel: it begins during sending, the send fails, and the next prompt is dropped for ever when the cancel resumes. |
| PromptRaces.LateFinalAbandons | src/openzues/services/acp_agent.py:444-837 | The same with a final event whose text is still on its way to the client when its prompt is cancelled: its rest drops the next prompt for ever. |
| PromptAgent.AcpGatewayAgent.BeginPrompt | src/openzues/services/acp_agent.py:426-458 | `prompt` up to `chat.send` is one `BeginPrompt` step. |
| PromptAgent.AcpGatewayAgent.SendReturned | src/openzues/services/acp_agent.py:459-480 | What follows the send, accepted or failed, is one step. |
| PromptAgent.AcpGatewayAgent.FindPendingBySessionKey | src/openzues/services/acp_agent.py:767-778 | The first pending prompt, in dict order, with the session key and, if given, the run id. |
| PromptAgent.AcpGatewayAgent.SendThought | src/openzues/services/acp_agent.py:780-811 | Sends exactly the new part of the thoughts and records it. |
| PromptAgent.AcpGatewayAgent.SendText | src/openzues/services/acp_agent.py:812-822 | Sends exactly the new part of the text, measured when it is sent, and records it. |
| PromptAgent.AcpGatewayAgent.TextOn | src/openzues/services/acp_agent.py:602-822 | From the text on, an event waits for the client if it sent something and otherwise goes on to finish. |
| PromptAgent.AcpGatewayAgent.TextResume | src/openzues/services/acp_agent.py:602-822 | An event that waited for its thoughts to be taken goes on as one `TextResume` step. |
| PromptAgent.AcpGatewayAgent.ToldResume | src/openzues/services/acp_agent.py:602-822 | One that waited for its text goes on as one `ToldResume` step. |
| PromptAgent.AcpGatewayAgent.FinishPrompt | src/openzues/services/acp_agent.py:824-826 | Takes whatever is pending for the session out of table and store, and starts waiting for the snapshot. |
| PromptAgent.AcpGatewayAgent.FinishPromptResume | src/openzues/services/acp_agent.py:827-837 | Afterwards resolves the future with its stop reason unless it is resolved. |
| PromptAgent.AcpGatewayAgent.HandleChatEvent | src/openzues/services/acp_agent.py:580-616 | The chat branch up to its first wait (find, stream, finish with the right stop reason) is one `Chat` step. |
| PromptAgent.AcpGatewayAgent.Cancel | src/openzues/services/acp_agent.py:502-523 | `cancel` up to `chat.abort` is one step, and captures the pending prompt. |
| PromptAgent.AcpGatewayAgent.CancelResume | src/openzues/services/acp_agent.py:524-526 | Afterwards pops the session's entry and resolves the captured prompt, if that is unresolved. |
| PromptAgent.AcpGatewayAgent.HandleGatewayReconnect | src/openzues/services/acp_agent.py:487-489 | Goes through a snapshot of the table, in dict order. |
| PromptAgent.AcpGatewayAgent.ReconnectShouldAsk | src/openzues/services/acp_agent.py:490-496 | Asks only about prompts whose send was accepted. |
| PromptAgent.AcpGatewayAgent.ReconnectAnswered | src/openzues/services/acp_agent.py:490-500 | Finishes the prompt if the answer is ok. |
| RateLimit.AtMostTwiceTheMaximum | src/openzues/services/acp_agent.py:714-728 | Under a monotone clock, any half-open interval of one window length admits at most twice the maximum, over every series of calls. |
| RateLimit.TwiceTheMaximumHappens | src/openzues/services/acp_agent.py:714-728 | The bound is met, for every limit and window. |
| RateLimit.RetryAdvice | src/openzues/services/acp_agent.py:720-727 | A refused caller that is the next to call is admitted if and only if its window has run out; the advertised seconds suffice, and are less than a second too long. |
| RateLimit.SessionCreateLimiter.constructor | src/openzues/services/acp_agent.py:325-341 | A window of at least one second, starting at construction with nothing admitted. |
| RateLimit.SessionCreateLimiter.EnforceSessionCreateRateLimit | src/openzues/services/acp_agent.py:714-728 | One call is one `Enforce` step. |
| ToolLocations.AddAllIsNormalForm | src/openzues/services/acp_event_mapper.py:259-281 | Folding the add operation over any sequence of occurrences gives exactly its normal form: first occurrences in order, without bare entries for paths that ever have a line. |
| ToolLocations.NormalFormMembers | src/openzues/services/acp_event_mapper.py:259-281 | As a set that is: every occurrence with a line, and a bare path exactly when it never occurs with one. |
| ToolLocations.OrderOnlyOrders | src/openzues/services/acp_event_mapper.py:259-281 | So the order of occurrences decides only the order of the list. |
| ToolLocations.AddAllIsCanonical | src/openzues/services/acp_event_mapper.py:259-281 | The list never holds duplicates, nor a path both with and without a line. |
| ToolLocations.CanonicalIsFixed | src/openzues/services/acp_event_mapper.py:259-281 | Such lists are fixed points, element for element. |
| ToolLocations.NormalFormIsIff | src/openzues/services/acp_event_mapper.py:259-281 | The normal form of any sequence is exactly a given list if and only if the list is itself in normal form, the two say the same, and the list's locations first occur in the sequence in its order. |
| LocationCollector.KeyInjective | src/openzues/services/acp_event_mapper.py:275 | The `path:line` dict key identifies the location, also for paths that contain colons and digits. |
| LocationCollector.BudgetIsInvisible | src/openzues/services/acp_event_mapper.py:294-334 | On a value within both limits the budgeted walk finds what an unlimited walk finds. |
| LocationCollector.Supersede | src/openzues/services/acp_event_mapper.py:267-274 | The loop over the dict stops if and only if an entry covers the new location, and otherwise has deleted exactly the bare entry for its path. |
| LocationCollector.AddTo | src/openzues/services/acp_event_mapper.py:267-281 | Loop, key check and insertion on the dict are the add operation on the list it represents. |
| LocationCollector.Collector.AddToolLocation | src/openzues/services/acp_event_mapper.py:259-281 | The same, with path normalisation; nothing for a path that is refused. |
| LocationCollector.Collector.CollectMarkers | src/openzues/services/acp_event_mapper.py:284-291 | Adds the paths of all `FILE:` and `MEDIA:` lines. |
| LocationCollector.Collector.Collect | src/openzues/services/acp_event_mapper.py:294-334 | The recursive walk with its shared counter terminates and equals folding the add operation over what the nodes contribute, in preorder, as many as the budget still allows, of the value cut below depth 4 and without `content` fields. |
| LocationCollector.Collector.CollectItems | src/openzues/services/acp_event_mapper.py:308-313 | The array loop with its early return does so for the items. |
| LocationCollector.Collector.CollectFields | src/openzues/services/acp_event_mapper.py:329-334 | The field loop does so for the fields. |
| LocationCollector.Collector.CollectPaths | src/openzues/services/acp_event_mapper.py:317-321 | Adds every path field with the record's line, in key order. |
| LocationCollector.Collector.CollectTextBlocks | src/openzues/services/acp_event_mapper.py:322-328 | Adds the markers of every text block of `content`. |
| LocationExtract.ExtractToolCallLocations | src/openzues/services/acp_event_mapper.py:337-341 | The result is the normal form of what the values contribute one after the other, each within a budget of its own; nothing if that is empty. |
| LocationRecords.ExtractedIff | src/openzues/services/acp_event_mapper.py:220-341 | Exactly what extraction lists, by fields, blocks and lines: every location with a line that one of the first hundred nodes of a value says, and every bare path that one says and none says with a line; there is no list if and only if nothing is said. |
| LocationRecords.SaysIff | src/openzues/services/acp_event_mapper.py:220-328 | Exactly what one node says: a text the paths of its lines marked FILE: or MEDIA:; a record the paths of its path keys, with its first valid line if it has one, and the bare paths marked in the text blocks of its content. |
| LocationRecords.NodesIff | src/openzues/services/acp_event_mapper.py:294-334 | The nodes are exactly what at most four steps into items and fields, never into `content`, lead to. |
| LocationRecords.LinesIff | src/openzues/services/acp_event_mapper.py:284-291 | A line of a text is a stretch without line breaks between two of them, or the ends. |
| LocationRecords.FirstLineIff | src/openzues/services/acp_event_mapper.py:242-256 | The line of a record is that of the first line key that holds a finite number of at least one, rounded down. |
| LocationRecords.PlainPathIff | src/openzues/services/acp_event_mapper.py:220-239 | Text that looks like no URL is a path, without outer white space, if and only if it is not empty, at most 4096 characters long and on one line. |
| LocationRecords.UrlPaths | src/openzues/services/acp_event_mapper.py:220-239 | Web addresses are never paths; a file address is what it decodes to, if that is not empty. |
| LocationExtract.ReextractedIsReached | src/openzues/services/acp_event_mapper.py:294-341 | Extracting from a stored list whose paths normalisation leaves alone and mark nothing gives back a prefix of it: the locations whose dicts start within the budget. |
| LocationExtract.ReextractsIff | src/openzues/services/acp_event_mapper.py:294-341 | Such a list comes back whole, in order, if and only if the dicts of all but the last location have at most 98 nodes, three for a location with a line and two for one without. |
| LocationExtract.ReextractionLimits | src/openzues/services/acp_event_mapper.py:294-341 | So up to 33 such locations always come back and more than 50 never do; 33 is exact when all have lines, 50 when none has. |
| LocationExtract.UpdateKeepsStored | src/openzues/services/acp_agent.py:664-702 | For any stored list at all, what a tool update lists is exactly: every stored location the walk reaches (its path normalised once more), everything the update contributes, and what the stored paths mark as far as the walk reads them, except bare paths that the list or the update gives a line. |
| LocationExtract.RereadIs | src/openzues/services/acp_event_mapper.py:294-341 | What comes back from any stored list is the normal form of what is read of it: each path, normalised once more, and then what it marks, as far as the budget goes. |
| LocationExtract.SameLocationsIff | src/openzues/services/acp_event_mapper.py:220-341 | Any list gives back the same locations if and only if it names no path both with and without a line, each of its locations is read, and what is read besides are only its paths. |
| LocationExtract.SameListIff | src/openzues/services/acp_event_mapper.py:220-341 | It comes back element for element if and only if, besides, it has no duplicates and none of its locations is read before an earlier one. |
| LocationExtract.AloneIff | src/openzues/services/acp_event_mapper.py:220-341 | Any location comes back alone if and only if it is read and what is read with it has the same path. |
| LocationExtract.NormalAloneIff | src/openzues/services/acp_event_mapper.py:220-341 | One whose path normalisation leaves alone comes back alone if and only if that path marks no other path. |
| LocationExtract.MarkerPathGrows | src/openzues/services/acp_event_mapper.py:220-239 | It can fail: a stored path `FILE:x` passes normalisation, and feeding it back adds `x`. |
| SortedText.SortedUnique | src/openzues/services/device_bootstrap_profile.py:33 | A strictly sorted list is determined by its members, so profiles are canonical. |
| SortedText.SortedList | src/openzues/services/device_bootstrap_profile.py:33 | `sorted` on a set yields that list. |
| DeviceProfile.NormalizeScopes | src/openzues/services/device_bootstrap_profile.py:20-33 | The loop and the implications yield the sorted closure of the stripped, non-empty scopes. |
| DeviceProfile.NormalizeRoles | src/openzues/services/device_bootstrap_profile.py:51-59 | The same for roles, without closure. |
| PyText.StripIff | src/openzues/services/device_bootstrap_profile.py:22 | `strip` takes away white space at both ends and nothing else; every model uses it. |
| DeviceProfile.ScopesAbsorb | src/openzues/services/device_bootstrap_profile.py:20-33 | Normalising part of a list first changes nothing; with nothing added this is idempotence. |
| DeviceProfile.NormalizeIdempotent | src/openzues/services/device_bootstrap_profile.py:66-72 | Profiles are normalised once and for all. |
| DeviceProfile.ScopesMonotone | src/openzues/services/device_bootstrap_profile.py:20-33 | More scopes give more scopes, and none that was given is lost. |
| DeviceProfile.ResolveScopesForRole | src/openzues/services/device_bootstrap_profile.py:36-48 | Only an operator gets scopes: those of the handoff set that its scopes imply. |
| DeviceProfile.NormalizeHandoffProfile | src/openzues/services/device_bootstrap_profile.py:75-86 | The loop over roles and the second normalisation come to: the roles, and if operator is among them the handoff part of the closure, sorted. |
| DeviceTokens.NormalizeKeyIdempotent | src/openzues/services/device_bootstrap_tokens.py:360-367 | Normalising a public key twice is normalising it once, although a normalised key may contain BEGIN. |
| DeviceTokens.FreshTokenVerifiesIff | src/openzues/services/device_bootstrap_tokens.py:38-167 | Right after issue a token is verified, for any device and key, if and only if it is within its ten minutes and its profile allows role and scopes. |
| DeviceGrants.FreshTokenGrantsIff | src/openzues/services/device_bootstrap_tokens.py:38-357 | The same by the texts of roles and scopes: a token just issued can be verified if and only if it has not expired, device, key and role are named, the role is one of those issued (by default node and operator), every requested scope with all it implies was issued, and for any role but operator starts with that role and a dot. |
| DeviceGrants.GrantsStayWithin | src/openzues/services/device_bootstrap_tokens.py:127-357 | On every run after a token was issued, whatever is verified against it names a role and scopes within what was issued, in that sense. |
| DeviceGrants.IssuedIff | src/openzues/services/device_bootstrap_tokens.py:230-266 | Exactly which roles and scopes a token has: the default, or the requested roles and, for an operator, what its scopes imply as far as that may be handed over. |
| DeviceGrants.ImpliedIff | src/openzues/services/device_bootstrap_profile.py:20-33 | Which scopes are implied, by name: operator.admin implies read and write, operator.write implies read. |
| DeviceGrants.RedeemedScopeIff | src/openzues/services/device_bootstrap_profile.py:36-48 | Only an operator redeems scopes: what the named ones imply, as far as that may be handed over. |
| DeviceGrants.ClearedIsGone | src/openzues/services/device_bootstrap_tokens.py:105-110 | After clearing no token is found. |
| DeviceGrants.RevokedIsGone | src/openzues/services/device_bootstrap_tokens.py:91-102 | A revoked token is not found any more, and all others are found as before. |
| DeviceGrants.RestoredIsFoundIff | src/openzues/services/device_bootstrap_tokens.py:113-452 | A restored record is found until its stamp is more than ten minutes old or it expires, whichever comes first. |
| DeviceGrants.KeyIs | src/openzues/services/device_bootstrap_tokens.py:360-367 | A key that looks like PEM or padded base64 is decoded if that succeeds; any other is taken as it is, without outer white space. |
| DeviceTokens.VerifiedForOnePair | src/openzues/services/device_bootstrap_tokens.py:127-167 | After a token is verified for a device and key, every later successful verification is for the same device and normalised key, over any run that does not issue or restore that token again. |
| DeviceTokens.BoundProfileIff | src/openzues/services/device_bootstrap_tokens.py:170-191 | Over such a run the bound profile is answered if and only if the token is found and device and key are that pair, and it is the profile issued. |
| DeviceTokens.RunContinues | src/openzues/services/device_bootstrap_tokens.py:38-462 | A token that is still there after such a run kept its token, times, issued profile and binding, and only gained redeemed roles and scopes; and one that is gone does not come back. |
| DeviceTokens.WellKeyedKept | src/openzues/services/device_bootstrap_tokens.py:113-415 | On every reachable file each record is under its own stripped token, so the search by comparison has at most one answer. |
| DeviceTokens.GoneStaysGone | src/openzues/services/device_bootstrap_tokens.py:422-452 | A record that is expired, removed or never issued is not found at any later time, unless issued or restored. |
| DeviceTokens.LivesTenMinutes | src/openzues/services/device_bootstrap_tokens.py:38-452 | A token issued at t and left alone is found at a later time if and only if that is before t plus ten minutes. |
| DeviceTokens.IssuedWithinHandoff | src/openzues/services/device_bootstrap_tokens.py:230-266 | Every issued profile, requested or default, has its scopes, with all they imply, within the handoff set. |
| DeviceTokens.GrantedWithinHandoff | src/openzues/services/device_bootstrap_tokens.py:127-357 | So whatever is ever verified against an issued token was granted only scopes whose implications lie within the handoff set. |
| DeviceTokens.RedeemedIsClosure | src/openzues/services/device_bootstrap_tokens.py:194-227 | Redeeming a list of requests gives exactly the closure of everything requested. |
| DeviceTokens.RedeemOrderIrrelevant | src/openzues/services/device_bootstrap_tokens.py:194-227 | So order and repetition of the requests do not matter. |
| DeviceTokens.RunRedeems | src/openzues/services/device_bootstrap_tokens.py:194-227 | Over any run while a token lives, its redeemed profile is what its own redemptions add up to, whatever else happens. |
| DeviceTokens.RunsRedeemAlike | src/openzues/services/device_bootstrap_tokens.py:194-227 | Two runs that redeem the same requests end with the same redeemed profile. |
| DeviceTokens.SatisfiesIff | src/openzues/services/device_bootstrap_tokens.py:315-335 | Fully redeemed means: every required role, and if operator is required every handoff scope the required scopes imply. |
| DeviceTokens.FullyRedeemedForGood | src/openzues/services/device_bootstrap_tokens.py:220-335 | Once fully redeemed, a token stays so as long as it lives. |
| DeviceTokenStore.TokenFile.ReadState | src/openzues/services/device_bootstrap_tokens.py:422-452 | The loop keeps exactly the records that are not expired. |
| DeviceTokenStore.TokenFile.FindEntry | src/openzues/services/device_bootstrap_tokens.py:399-415 | The search over all records, in any order and of any file, finds a live record with the token if and only if there is one. |
| DeviceTokenStore.WellKeyedAnswers | src/openzues/services/device_bootstrap_tokens.py:399-415 | In a file with every record under its own stripped token, it finds exactly the record under the stripped token. |
| DeviceTokenStore.IssuedBootstrapProfile | src/openzues/services/device_bootstrap_tokens.py:230-266 | Normalising twice, then bounding, yields the profile to issue. |
| DeviceTokenStore.Allows | src/openzues/services/device_bootstrap_tokens.py:338-357 | The checks on role and scopes, with their early exits, are the specification's. |
| DeviceTokenStore.SatisfiesProfile | src/openzues/services/device_bootstrap_tokens.py:315-335 | The loop over required roles decides being satisfied. |
| DeviceTokenStore.TokenFile.Issue | src/openzues/services/device_bootstrap_tokens.py:38-70 | One `Issue` step; expires ten minutes later. |
| DeviceTokenStore.TokenFile.Verify | src/openzues/services/device_bootstrap_tokens.py:127-167 | For any file: accepts exactly what the found record allows, binds that record and nothing else, and writes nothing on refusal; on a well-keyed file this is one `Verify` step with its answer. |
| DeviceTokenStore.TokenFile.GetBound | src/openzues/services/device_bootstrap_tokens.py:170-191 | For any file, answers the issued profile of the found record to the pair it is bound to; on a well-keyed file that is the bound profile. |
| DeviceTokenStore.TokenFile.GetProfile | src/openzues/services/device_bootstrap_tokens.py:73-88 | For any file, answers the issued profile of a found record. |
| DeviceTokenStore.TokenFile.Redeem | src/openzues/services/device_bootstrap_tokens.py:194-227 | For any file, adds the request to the found record's redeemed profile and says whether that satisfies the issued one; on a well-keyed file this is one `Redeem` step. |
| DeviceTokenStore.TokenFile.Revoke | src/openzues/services/device_bootstrap_tokens.py:91-102 | For any file, removes and returns the found record; on a well-keyed file this is one `Revoke` step. |
| DeviceTokenStore.TokenFile.Clear | src/openzues/services/device_bootstrap_tokens.py:105-110 | One `Clear` step; counts the live records. |
| DeviceTokenStore.TokenFile.Restore | src/openzues/services/device_bootstrap_tokens.py:113-124 | One `Restore` step; nothing for a record without a token. |
| SessionKeys.AccountIdIdempotentIff | src/openzues/services/session_keys.py:110-133 | For every text: normalising twice differs from normalising once if and only if the stripped text is a valid id with a dotted capital I in it, or is no valid id and, with dashes put in and trimmed, is longer than 64, starts with an underscore and has a dash in place 64. |
| SessionKeys.AccountIdNotIdempotent | src/openzues/services/session_keys.py:110-133 | That does happen in ASCII, for a concrete text of 65 characters. |
| SessionKeys.AccountIdTwiceIff | src/openzues/services/session_keys.py:110-133 | Twice is not enough if and only if the text is a valid id with a dotted capital I whose lower case is cut at a dash after a leading underscore. |
| SessionKeys.AccountIdNeedsThree | src/openzues/services/session_keys.py:110-133 | That happens too, for a concrete text of 64 characters. |
| SessionKeys.AccountIdSettles | src/openzues/services/session_keys.py:110-133 | Three times is always enough. |
| SessionKeys.AccountIdShape | src/openzues/services/session_keys.py:110-133 | A normalised account has no leading dash, no colon or space and at most 128 characters, and is no blocked name; it is 1 to 64 identifier characters if and only if the text is not a valid id with a dotted capital I, a dotless i or a long s. |
| SessionKeys.AccountIdIs | src/openzues/services/session_keys.py:110-151 | What an account or agent id is: the default for nothing, the lower case of a valid id, and otherwise what is left with dashes inside, cut at 64; blocked account names give the default. |
| SessionKeys.DashedJoins | src/openzues/services/session_keys.py:114 | Between identifier characters any run of other characters becomes one dash. |
| SessionKeys.AgentIdShape | src/openzues/services/session_keys.py:140-151 | The same for agent ids, hence never a colon in one. |
| Bindings.ParseBuiltKey | src/openzues/services/acp_persistent_bindings.py:73-140 | Parsing a built session key gives back its channel and its account, normalised again, if the channel has no colon, and fails if it has. |
| Bindings.SameKeySameAccount | src/openzues/services/acp_persistent_bindings.py:73-82 | One key is never built for two accounts, whatever the digest. |
| Bindings.SplitConcat | src/openzues/services/acp_persistent_bindings.py:130 | Splitting distributes over a separator. |
| Bindings.RecordRoundTripsIff | src/openzues/services/acp_persistent_bindings.py:85-173 | A spec survives the trip through its record if and only if all its texts are already normalised. |
| Bindings.SpecFields | src/openzues/services/acp_persistent_bindings.py:266-306 | Where every field of a spec comes from: the binding's own text if it is there and not blank, then that of its agent's runtime, if that is of type acp, and for the directory then the agent's workspace. |
| Bindings.AgentConfigIs | src/openzues/services/acp_persistent_bindings.py:193-198 | The configuration of an agent is that of the first agent with the same normalised id. |
| Bindings.FromRecordIff | src/openzues/services/acp_persistent_bindings.py:143-173 | A record gives a spec if and only if it is of a session, names a conversation, and names an agent or else its key does. |
| BindingResolver.ResolveRecord | src/openzues/services/acp_persistent_bindings.py:318-355 | By the texts of peers and accounts: the spec is that of the binding that suits the conversation or its parent, its account or all accounts, and of these the conversation itself before its parent, then one that names the account before a wildcard, then the least position; nothing if and only if none suits. |
| BindingResolver.ChosenIsBest | src/openzues/services/acp_persistent_bindings.py:239-346 | Being first by rank and position is being best in that sense. |
| BindingResolver.RankIff | src/openzues/services/acp_persistent_bindings.py:239-263 | What each rank means: conversation rank 0 if and only if the peer is the conversation itself, account rank 0 if and only if the binding names the account. |
| BindingResolver.SortMatches | src/openzues/services/acp_persistent_bindings.py:344 | The sort yields the same matches in rank order. |
| BindingResolver.RankedMatches | src/openzues/services/acp_persistent_bindings.py:330-343 | The loop collects exactly the matching bindings with their ranks, in position order. |
| BindingResolver.ResolveBySessionKey | src/openzues/services/acp_persistent_bindings.py:358-391 | Returns the spec of least weight among the bindings that lead to the key, the earlier of equals, and nothing if and only if none leads to it. |
| BindingResolver.KeyLeadsBackIff | src/openzues/services/acp_persistent_bindings.py:318-391 | The session key of whatever the conversation resolver finds leads back to a spec with that same key if and only if the channel has no colon and normalising the account twice is enough; otherwise it leads nowhere. |
| BindingResolver.SameAccountMatchesIff | src/openzues/services/acp_persistent_bindings.py:223-263 | A configured account is normalised once and the account of a conversation twice: where channel and peer match, a binding matches a conversation that names its very text if and only if that is the wildcard or normalising it once is enough. |
| BindingResolver.ResolvedSpecSurvivesRecordIff | src/openzues/services/acp_persistent_bindings.py:85-355 | A spec the conversation resolver finds survives the trip through the record returned with it if and only if normalising the account twice is enough. |
| BindingResolver.SomeChosen | src/openzues/services/acp_persistent_bindings.py:386-391 | If a binding leads to a key, one is chosen. |
| BindingResolver.WeightIsLexicographicIff | src/openzues/services/acp_persistent_bindings.py:386-391 | Weighing the account rank by 1000 picks the lexicographically first match if and only if the first exact match stands less than 1000 places behind the first wildcard match, where both exist. |
| BindingResolver.UpToAThousand | src/openzues/services/acp_persistent_bindings.py:386-391 | So it always does for at most 1000 bindings. |
| BindingResolver.WildcardWins | src/openzues/services/acp_persistent_bindings.py:386-391 | And not always for 1001: with a wildcard in the first place and a binding that names the account in the last, both leading to one key, the wildcard is chosen. |
| JsonRpc.FirstDecides | src/openzues/services/codex_rpc.py:241-424 | Over every interleaving, a call's future holds exactly what the first deciding event after the call decides: the first response with its id, its timeout, or closing (JSON-RPC 2.0, section 5). |
| JsonRpc.ReturnsFirstResponse | src/openzues/services/codex_rpc.py:241-257 | The future of a call that has ended is decided, and a call that returns a result or error returns that of the first response with its own id, with nothing deciding it before. |
| JsonRpc.IdsNeverReused | src/openzues/services/codex_rpc.py:242-246 | No two calls of a run get the same id. |
| JsonRpc.OtherResponsesIgnored | src/openzues/services/codex_rpc.py:413-424 | A response changes nothing if and only if its id was never handed out or its call is already decided. |
| JsonRpc.CallReturns | src/openzues/services/codex_rpc.py:241-424 | A call whose send goes through and whose response comes returns just that; if it times out first, it ends so; and either way it is registered no more. |
| JsonRpc.RunGood | src/openzues/services/codex_rpc.py:211-257 | In every reachable state each unresolved future is registered, and a finished call is not. |
| JsonRpc.ClosedUntilNextCall | src/openzues/services/codex_rpc.py:230-239 | After closing no future is unresolved or registered, until the next call. |
| JsonRpc.FailedSendUnresolvedIff | src/openzues/services/codex_rpc.py:230-424 | Over every run: the future of a call whose send failed is unresolved if and only if neither a response with its id nor a close has come since the call, and it stays registered if and only if no close has. |
| JsonRpc.UnsentTimesNotOut | src/openzues/services/codex_rpc.py:241-257 | No timeout ever decides such a call, or one still being sent. |
| JsonRpc.CallAfterCloseLeaks | src/openzues/services/codex_rpc.py:230-257 | For instance, a call made after closing, which cannot send, leaves an unresolved future behind. |
| RpcClient.CodexAppServerClient.BeginCall | src/openzues/services/codex_rpc.py:241-247 | `call` up to sending is one step, and returns the next id. |
| RpcClient.CodexAppServerClient.SendFinished | src/openzues/services/codex_rpc.py:254 | The send succeeding or raising is one step. |
| RpcClient.CodexAppServerClient.HandleResponse | src/openzues/services/codex_rpc.py:413-424 | An incoming response is one step. |
| RpcClient.CodexAppServerClient.FinishCall | src/openzues/services/codex_rpc.py:255-257 | The end of the wait, whatever its reason, drops the registration; it gives the future's outcome, or a timeout, which may come even after the future is done. |
| RpcClient.CodexAppServerClient.Close | src/openzues/services/codex_rpc.py:230-233 | The loop cancels every unresolved registered future and clears the registrations. |
| PromptText.ExtractText | src/openzues/services/acp_event_mapper.py:85-119 | The running total is the UTF-8 length of the joined parts (RFC 3629, section 3), so the error is raised if and only if the whole text is over the limit, although the loop stops early. |
| PromptText.MoreBlocksMoreBytes | src/openzues/services/acp_event_mapper.py:110-119 | The text of a prompt is at least as long as that of its first blocks. |
| PromptText.BuildMessage | src/openzues/services/acp_translator.py:106-139 | A request is built if and only if its whole message, working directory included, is at most 2 MiB. |
| PromptBlocks.TextsAre | src/openzues/services/acp_event_mapper.py:85-119 | What is joined are the texts of exactly the blocks that say something, in order. |
| PromptBlocks.PlainBlocks | src/openzues/services/acp_event_mapper.py:93-101 | A text block says its text, even an empty one; a resource its text unless that is empty; no other kind but a link says anything. |
| PromptBlocks.LinkIs | src/openzues/services/acp_event_mapper.py:101-111 | A resource link shows its escaped title in brackets, if it has one, and its escaped address, if that is not empty. |
| PromptBlocks.TitleSpelled | src/openzues/services/acp_event_mapper.py:80-82 | Anywhere in a title a control character is shown as its code, a bracket after a backslash, and any other character as itself. |
| PromptBlocks.JoinedSplits | src/openzues/services/acp_event_mapper.py:119 | Parts without line breaks, joined, split into the same parts. |
| PromptBlocks.Utf8CharIs | src/openzues/services/acp_event_mapper.py:115 | Each character takes the least number of bytes, and they make up its number again (RFC 3629, section 3). |
| PromptBlocks.PrefixIff | src/openzues/services/acp_translator.py:122-126 | The working directory is named unless the prompt says no, or says nothing and the options say no. |
| PromptBlocks.MessageIs | src/openzues/services/acp_translator.py:127-131 | A message ends with the text, after the directory in brackets if that is named. |
| PromptBlocks.CodeIsNumber | src/openzues/services/acp_event_mapper.py:73-74 | A control character without a code of its own is spelled by its number in two hexadecimal digits. |
| PromptText.EscapeInlineControlChars | src/openzues/services/acp_event_mapper.py:58-77 | The loop escapes character by character. |
| PromptText.EscapedHasNoControl | src/openzues/services/acp_event_mapper.py:58-77 | No control character or line separator is left. |
| PromptText.EscapedSameIff | src/openzues/services/acp_event_mapper.py:58-77 | Text is left alone if and only if it has none. |
| PromptText.AmbiguousIff | src/openzues/services/acp_event_mapper.py:58-77 | A text shares its escaped form with a different text if and only if it has a control character, or contains the code of one. |
| PromptText.ReadBackIff | src/openzues/services/acp_event_mapper.py:58-77 | Reading every code as its character gives the text back from its escaped form if and only if the text contains no code. |
| Slugs.SlugifySameIff | src/forumforge/database.py:9-11 | The fixed points of slugify are exactly the words of lower-case letters and digits joined by single dashes. |
| Slugs.SlugifyIdempotent | src/forumforge/database.py:9-11 | So slugify is idempotent. |
| Slugs.SlugifyJoins | src/forumforge/database.py:9-11 | What a slug is made of: between two texts that have letters or digits, whatever has none becomes one dash; at either end it is dropped; alone it gives `thread`. |
| Slugs.SlugifyWord | src/forumforge/database.py:9-11 | A word of letters and digits gives its lower case. |
| PyText.DecimalReads | src/forumforge/database.py:311 | The number of a candidate is written in decimal, without leading zeros. |
| Slugs.UniqueSlug | src/forumforge/database.py:305-312 | The search terminates, as there are more candidates than taken slugs, and returns the first candidate that is not taken. |
| Slugs.CandidatesDiffer | src/forumforge/database.py:309-311 | No two candidates are equal. |
| Forum.RunGood | src/forumforge/database.py:79-196 | In every reachable store each thread is under its own slug, slugs are fixed by slugify, post ids are globally unique and below the next one, and no title is queued twice. |
| Forum.NextGood | src/forumforge/database.py:79-196 | Every step keeps that. |
| Forum.ThreadsOnlyGrow | src/forumforge/database.py:79-196 | No thread is ever lost or overwritten, whatever later titles: posts are only added at the end, reactions only added, acceptance and locking never undone. |
| Forum.ReplyIsFound | src/forumforge/database.py:155-323 | A reply is found by its id ever after, in its own thread and in no other. |
| ForumEffects.LockedIff | src/forumforge/database.py:190-196 | Over every run, a thread is locked in the end if and only if it was or the run locks it. |
| ForumEffects.PostInTheEnd | src/forumforge/database.py:174-188 | A post is accepted in the end if and only if it was or the run accepts it; its reactions are those it had and then those of the run, in order; and it says what it said. |
| ForumEffects.RepliesAreAdded | src/forumforge/database.py:155-172 | A thread says in the end what it said and then the replies of the run to it, each by its author, in order. |
| ForumEffects.ThreadIsMade | src/forumforge/database.py:79-113 | A new thread is under a slug that was free, has what it was given, one opening post, and no lock. |
| ForumEffects.NotesIff | src/forumforge/database.py:155-317 | A reply or an accepted answer leaves one note with the author of the thread; nothing else leaves any. |
| ForumEffects.QueuedIff | src/forumforge/database.py:190-330 | Locking queues the title of the thread with its note and changes no other title's; no other step changes the queue. |
| ForumDatabase.ForumForgeDatabase.CreateThread | src/forumforge/database.py:79-113 | One step with the slug the search found; nothing for an unknown forum. |
| ForumDatabase.ForumForgeDatabase.AddReply | src/forumforge/database.py:155-172 | One step; the answer is the new post's id. |
| ForumDatabase.ForumForgeDatabase.AddReaction | src/forumforge/database.py:174-178 | One step, or an error that changes nothing. |
| ForumDatabase.ForumForgeDatabase.AcceptAnswer | src/forumforge/database.py:180-188 | One step, or an error that changes nothing. |
| ForumDatabase.ForumForgeDatabase.ModerateThread | src/forumforge/database.py:190-196 | One step for the state `locked`; any other state changes nothing. |
| ForumDatabase.ForumForgeDatabase.Find | src/forumforge/database.py:319-323 | The first post with the id, if there is one. |
| ForumDatabase.ForumForgeDatabase.UpsertQueueEntry | src/forumforge/database.py:325-330 | Replaces the note of the first entry with that title, or appends one. |

## Left out

- `src/openzues/app.py`, `schemas.py`, `settings.py`, `control_plane.py` and the advice services: routes, data shapes and scoring, which would only add easy members.
- SQLite itself, timestamps of rows, the retry of a claim whose row vanished, and `list_gateway_wake_requests`: each wake method is taken as one transaction.
- Sessions: `has_session`, clearing for tests, and the session id that is generated when none is given.
- The agent: tool events other than their locations, session snapshots, usage, commands, modes and configuration options.
- Floating point timestamps of bootstrap records, records that are not JSON objects, and writing the file: times are integers and the file is a map.
- Comparing a bootstrap token with characters outside ASCII raises an exception in the source; here it compares.
- Lone surrogates in texts: characters are Unicode scalar values.
- `str.lower` of letters outside ASCII, other than the dotted capital I and the Kelvin sign, leaves them alone. In account ids, agent ids, slugs and modes this makes no difference; a channel named in other scripts keeps its case.
- Session keys of agents are read back by a parameter; `resolve_agent_id_from_session_key` itself, and ensuring or resetting a configured session, are not part of this model.
- Splitting the tags of a thread, seeding the forum, and its read-only views.
- Attachments, provenance and the remaining fields of a prompt request, and finding the home directory to shorten a path.
- Notifications and server requests of the JSON-RPC client, its transports and the Windows sandbox; ids that are not numbers.
- LocationExtract.ReextractsIff: for paths that normalisation leaves alone and that mark nothing; `SameListIff` is the condition for any list.
- DeviceTokenStore.TokenFile.FindEntry: where a file edited by hand has two live records with one token, which of them is first in the file is not modelled.
- PromptEvolution.SilentIff: an exception from the client's connection, which would end the handler that sends, is not modelled.
