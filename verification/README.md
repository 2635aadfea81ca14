# Delivery, agent runtime and session lists: verified models

This project models the parts of the repository whose correctness depends on interleaving,
on arithmetic over texts and bytes, or on several data structures staying in step, and
proves what they keep.

* **Distributed delivery.** `PubSubHub`, `HubHistory` and `HubClass` are the process-wide
  pub/sub hub: a listener that re-subscribes to a fresh channel snapshot after every "poke".
  `Routes`, `RouteProgress`, `RouteRecovery`, `RouteRobustness`, `RouteLimits` and `Delivery`
  are the WebSocket connection manager: the lock-guarded map of sockets and its delayed mirror
  in Redis. `Broadcast` is one send to a user over all processes, and `Sends` and `SendRuns`
  any number of sends whose steps interleave with each other and with everything else.
  `JsonText` and `MessageSize` are the JSON forms and the size limits along the way, and
  `Pipeline` puts them together with a send.
* **Agent runtime.** `EventQueue` is the bounded queue between a graph run and its consumer;
  `AgentFactory` is the double-checked agent cache and `close_all`.
* **Texts and bytes.** `TextClip`, `Prompt`, `PromptJson` and `History` build the bounded
  recommendation prompt; `Base64` and `UploadUrl` are the image inliner's encoder, the push
  hook's decoder, and the upload URL printer and parser; `SkillName` is the skill-name
  normaliser.
* **Session lists.** `SessionList` is the paginated list with tombstones, `ScheduledList` the
  list of a scheduled task, which has none, and `Sidebar` the actions over all of them.
* **Index and cache.** `LocaleTree` is the translation-file updater, `AuthCache` the cache of
  authenticated users.

Concurrent code is a state machine whose actions are the code between two awaits; a class
holds the fields the source updates, and each of its methods is proved equal to one action.
A Redis command takes effect in the action that issues it. Time in `Routes` advances by
explicit ticks; a refresh tick is assumed to finish within a fixed `latency`, with
`2 * latency + 20 < 60`.

Where an expected property does not hold of the code, the model keeps the code and the
project states exactly when it holds, or shows a failing run:

* a subscription is lost exactly when its poke has no effect, as when it is merged into one
  that is still closing an older connection (`CoverageIffNoHazard`, `CoveredThroughoutIff`,
  `SplitPokeLosesSubscription`);
* a connected user's route key can be lost exactly while a delayed DEL is pending, and their
  registration exactly while an unregistration or a prune is (`KeyIsLostIff`,
  `RegistrationIsLostIff`; `ConnectedWithoutRoute` is a run that does it);
* a prune drops the membership of a live route exactly when a SET between its GET and its SREM
  is still in force (`PruneIsWrongIff`; `PruneCanDropLiveRoute` is a run that does it);
* a message with a lone surrogate passes the sender and is lost at the receiver
  (`SizeAgreement`, `LoneSurrogateIsLost`);
* a message reaches a working socket twice exactly when a Redis command of the send raises after the
  sender's own instance was published to (`HandedExactly`; `LateErrorDeliversTwice` is a run
  that does it);
* an event is lost at an error already when the queue is one short of full, since two markers
  follow (`TerminatedIs`, `HandledInOrder`);
* clips with a limit of 1 or 2 can be longer than the text (`ClipLengthIff`,
  `PackingLengthIff`), and a limit of 0 clips nothing;
* an upload URL on a base that is a data URL, a lone slash or already holds the marker does
  not parse back (`ParseUndoesPrint`);
* a session removed from a scheduled-task list by a move or a deletion is shown there again
  exactly when a later response or a prepend holds it (`StaysAwayIff`,
  `DeletedFromTaskStaysAwayIff`; `RemovedComesBack` is a run that does it);
* a soft refresh shrinks a list below what it showed exactly when a visible session lies beyond
  what it asks for, as when a session was removed before its page was loaded
  (`RefreshShrinksIff`, `HiddenSessionShrinks`); without tombstones it does not
  (`RefreshNeverShrinks`);
* a toggled favourite is shown up to date exactly in the lists the toggle looks at, which
  scheduled-task lists are not, or that had the new copy already (`ToggledCopyIff`,
  `ScheduledCopyIsStale`);
* a translation key below a leaf, or above another key, cannot be added without loss
  (`ExtractedKeysPresentIff`, `InsertedKeysIff`);
* `close_all` clears nothing when an agent was cached while it ran (`CloseAllClearsIff`).

The documentation of `send_to_user_with_broadcast` says it returns the number of channels
published to; when it falls back to local delivery it returns the number of sockets, and the
model follows the code. `dafny verify dfyconfig.toml` checks the project.

## Model

| member | source | states |
|---|---|---|
| PubSubHub.StepInv | src/infra/pubsub_hub.py:72-94 | every action of the hub keeps: no empty channel, a token in one channel only, the held connection being the listener's, expected disconnects only for it, permits plus tasks equal to the bound, and the dispatch ledger |
| PubSubHub.CoverageIffNoHazard | src/infra/pubsub_hub.py:262-287 | "the live connection listens to exactly the registered channels, or is dead, or is about to be closed, or a new snapshot is due" survives a step if and only if the step is not a change of the channel set whose poke has no effect |
| PubSubHub.RunsAreSafe | src/infra/pubsub_hub.py:145-202 | over every run the invariant holds, and coverage holds if no step was such a hazard |
| PubSubHub.CoveredThroughoutIff | src/infra/pubsub_hub.py:145-202 | a run from a covered state is covered in every state if and only if no step of it is a hazard |
| PubSubHub.AtomicRunsAreHazardFree | src/infra/pubsub_hub.py:262-287 | when a poke captures and closes in one go, and calls come from the running loop, no hazard can arise in any run |
| PubSubHub.NoLostSubscription | src/infra/pubsub_hub.py:72-94 | so no run from the start of the hub loses a subscription |
| PubSubHub.SplitPokeLosesSubscription | src/infra/pubsub_hub.py:262-270 | a concrete run of ten actions in which the guard on an unfinished poke swallows the request for a second channel, which then is not listened to and has no poke pending |
| PubSubHub.DispatchedExactlyOnce | src/infra/pubsub_hub.py:204-231 | in every run the tasks started, with those the dispatch loop is still to start, are in order one for each handler registered on its channel when an in-size message arrives before a stop, read off the actions alone, and no other; and at most the bound run |
| PubSubHub.RecordedExactlyOnce | src/infra/pubsub_hub.py:221-231 | between dispatches the tasks started for a message are those recorded for it |
| PubSubHub.OversizedIsDropped | src/infra/pubsub_hub.py:212-220 | an oversized message changes nothing |
| PubSubHub.StepDispatch | src/infra/pubsub_hub.py:222-231 | handlers started for a message followed by those still to start are always the handlers live at dispatch, while others run, register or leave |
| PubSubHub.StepPermits | src/infra/pubsub_hub.py:224-235 | free permits plus tracked tasks equals the bound after every action |
| PubSubHub.UnsubscribeKeys | src/infra/pubsub_hub.py:80-91 | removing a token changes the channel set exactly when it was the only handler of a channel |
| PubSubHub.InternalProgress | src/infra/pubsub_hub.py:145-202 | every step the running hub takes by itself lowers a measure and changes no registration |
| PubSubHub.QuiescentListens | src/infra/pubsub_hub.py:145-202 | a covered hub without an internal step left listens, on an open connection, to exactly the registered channels |
| PubSubHub.EventuallyListening | src/infra/pubsub_hub.py:145-202 | in whatever order internal steps are taken there are boundedly many, and after the last one every registered channel is listened to |
| PubSubHub.SubscriptionCount | src/infra/pubsub_hub.py:131-133 | the sum over channels is the number of live tokens |
| PubSubHub.RegistryTokens | src/infra/pubsub_hub.py:72-91 | subscribing adds one fresh live token and unsubscribing removes one, no other token changing |
| HubHistory.RegisteredIff | src/infra/pubsub_hub.py:72-91 | after any run a token stands for a handler on a channel if and only if the subscribe that was given this token named them and no unsubscribe of it followed |
| HubHistory.BacksOffIff | src/infra/pubsub_hub.py:186-199 | after an error the listener waits unless the hub has been stopped, or a poke has captured this very connection and the server closed it |
| HubHistory.WaitsDouble | src/infra/pubsub_hub.py:145-199 | in every run the wait is 2 to the number of failures in a row, and at most 30 seconds |
| HubHistory.StoppedStaysStopped | src/infra/pubsub_hub.py:104-108 | after a stop no connection is taken and no message dispatched any more |
| HubHistory.PassOutcome | src/infra/pubsub_hub.py:149-168 | a pass of the listener takes a connection exactly if the hub runs, has channels and can make a client, ends exactly after a stop, and otherwise sleeps or backs off |
| HubHistory.LostIsReplaced | src/infra/pubsub_hub.py:186-202 | when a connection dies on its own, the hub's own steps end with it listening to the registered channels on another one |
| HubHistory.MessageIsHandled | src/infra/pubsub_hub.py:180-231 | a running hub on an open connection takes every in-size message and, with permits free, starts a task for each handler and listens again |
| HubClass.RedisPubSubHub.constructor | src/infra/pubsub_hub.py:54-70 | the object starts in an initial, covered state of the protocol, with its limits raised to at least one |
| HubClass.RedisPubSubHub.ScheduleResubscribe | src/infra/pubsub_hub.py:262-270 | nothing without a running loop or with an unfinished poke, else a new poke task |
| HubClass.RedisPubSubHub.Subscribe | src/infra/pubsub_hub.py:72-78 | is the protocol's subscribe action, returns the new token, keeps the invariant, and keeps coverage if and only if it is no hazard |
| HubClass.RedisPubSubHub.Unsubscribe | src/infra/pubsub_hub.py:80-94 | is the protocol's unsubscribe action, keeps the invariant, and keeps coverage if and only if it is no hazard |
| HubClass.RedisPubSubHub.RemoveHandler | src/infra/pubsub_hub.py:80-91 | the loop over channels that stops at the first hit removes the token from the whole registry and drops the channel it emptied |
| HubClass.RedisPubSubHub.CountSubscriptions | src/infra/pubsub_hub.py:131-133 | in a valid hub the count is the number of live tokens |
| HubClass.RedisPubSubHub.StopRunning | src/infra/pubsub_hub.py:106-108 | the first step of stop keeps the invariant |
| HubClass.RedisPubSubHub.ListenerIterate | src/infra/pubsub_hub.py:149-168 | is the step that takes the channel snapshot and a new connection, idles, stops, or fails to make a client; like every listener step below it keeps invariant and coverage |
| HubClass.RedisPubSubHub.TakeSnapshot | src/infra/pubsub_hub.py:150-168 | the snapshot is the channels of that moment, on a connection not used before |
| HubClass.RedisPubSubHub.ListenerSubscribed | src/infra/pubsub_hub.py:168-178 | listening begins and the delay is reset |
| HubClass.RedisPubSubHub.ListenerEnd | src/infra/pubsub_hub.py:180-201 | the end of the message stream lets the connection go without a delay |
| HubClass.RedisPubSubHub.ListenerError | src/infra/pubsub_hub.py:186-194 | is the step that restarts at once after an expected disconnect and backs off otherwise |
| HubClass.RedisPubSubHub.ListenerBackoffDone | src/infra/pubsub_hub.py:195-199 | doubles the delay up to 30 seconds and lets the connection go |
| HubClass.RedisPubSubHub.ListenerRetryDone | src/infra/pubsub_hub.py:192-199 | the same when no connection could be made |
| HubClass.RedisPubSubHub.DetachPubsub | src/infra/pubsub_hub.py:296-304 | closes the connection, forgets it as expected, and gives it up if it is still the held one |
| HubClass.RedisPubSubHub.DispatchMessage | src/infra/pubsub_hub.py:180-222 | leaves the stream when the hub has stopped, changes nothing for an oversized message, and otherwise is about to start exactly the handlers registered now |
| HubClass.RedisPubSubHub.StartHandlerTask | src/infra/pubsub_hub.py:223-231 | takes a permit and starts the next handler's task |
| HubClass.RedisPubSubHub.OnHandlerTaskDone | src/infra/pubsub_hub.py:233-235 | gives the permit back and forgets the task |
| HubClass.RedisPubSubHub.PokeListener | src/infra/pubsub_hub.py:282-285 | captures the connection held now and expects its disconnect |
| HubClass.RedisPubSubHub.PokeClosed | src/infra/pubsub_hub.py:306-311 | closes the captured connection, whichever is held by then |
| HubClass.RedisPubSubHub.OnResubscribeTaskDone | src/infra/pubsub_hub.py:272-274 | only the poke still in the slot clears it |
| Routes.StepInv | src/infra/websocket.py:114-145 | every action keeps: refresh tasks exactly for users with sockets, no empty bucket, wake-ups and expiries within their periods, no sockets for a user whose task is being stopped |
| Routes.RefreshTaskIffConnected | src/infra/websocket.py:403-430 | in every reachable state a user has a refresh task if and only if they have a socket |
| Routes.InBucketIff | src/infra/websocket.py:114-145 | in every run a user's bucket holds exactly the sockets that were there or connected and have neither disconnected nor been cleaned up since, read off the actions |
| Routes.RegistrationIsCurrent | src/infra/websocket.py:131-144 | each registration that a connect, a disconnect or a cleanup sets off carries the number of sockets its user has by then, and each sets off one per user concerned and no other |
| Routes.NoRefreshAfterDisconnect | src/infra/websocket.py:423-430 | after the disconnect that cancelled the task no refresh write of that user follows until they connect again |
| Routes.StaleRouteVanishes | src/infra/websocket.py:373-386 | once delayed positive writes have drained, a disconnected user's route is never extended, whatever else happens |
| Routes.StaleRouteGoneInSixtySeconds | src/infra/websocket.py:373-386 | and it is dead within 60 seconds |
| RouteProgress.NeverStuck | src/infra/websocket.py:403-421 | unless the lock is held, a second can pass or a refresh tick that is due has a step |
| RouteProgress.TimePasses | src/infra/websocket.py:403-421 | the clock of a run is the sum of its ticks |
| RouteProgress.TickWrites | src/infra/websocket.py:407-415 | a refresh tick that is due sets the key for 60 seconds, lists the instance, lets the set expire in 60 and sleeps for 20, and changes nothing else |
| RouteProgress.FailedTickSleeps | src/infra/websocket.py:407-415 | a tick whose command raises is due again in 20 seconds |
| RouteProgress.RegistrationWrites | src/infra/websocket.py:373-383 | a delayed registration does the same in three commands and is done |
| RouteProgress.UnregistrationWrites | src/infra/websocket.py:384-386 | a delayed unregistration takes key and membership away in two |
| RouteProgress.FailureEndsOperation | src/infra/websocket.py:387-388 | a command that raises ends its synchronisation and changes nothing else |
| RouteProgress.TouchRenews | src/infra/websocket.py:383 | another instance keeps the shared set alive for exactly 60 seconds and changes no membership |
| RouteProgress.PrunesPending | src/infra/websocket.py:340-343 | in every run the prunes pending are those that saw no key and have not removed the member yet |
| RouteProgress.CleanupDrops | src/infra/websocket.py:291-307 | a cleanup ends exactly when all its pairs have been gone through; whatever happened meanwhile, exactly they are gone, the lock is free and exactly the users left without sockets are unregistered |
| RouteRecovery.SelfStabilises | src/infra/websocket.py:403-421 | with prunes and failing delayed writes allowed: from any reachable state with the user connected and no delayed DEL left, every steady run brings the key back within a period and two latencies, and once nothing is pending against the user they are registered after two more periods |
| RouteRecovery.RegisteredUnlessPruned | src/infra/websocket.py:403-421 | from a drained state every run in which no prune of the user begins has them registered after two periods and three latencies, whether or not the key was there |
| RouteRecovery.PendingOnlyDrains | src/infra/websocket.py:334-343 | once the key is back no prune of the user can begin, and pending prunes and unregistrations only become fewer |
| RouteRecovery.RouteRestoredByNextTick | src/infra/websocket.py:403-421 | whatever prunes are pending or begin and whichever delayed writes fail, the route key is back after one refresh period and two latencies, stays, and lets no further prune begin |
| RouteRecovery.StaysRegistered | src/infra/websocket.py:403-421 | a registered user with nothing pending stays registered through every steady run |
| RouteRobustness.SurvivesFailures | src/infra/websocket.py:403-421 | a registered user with nothing pending stays registered through every run in which no two consecutive refresh ticks of theirs fail, wherever in a tick a failure comes, if three latencies and two refresh periods fit into the 60 seconds |
| RouteRobustness.RobustStep | src/infra/websocket.py:403-421 | every action keeps what one more failing tick may cost, and a tick that fails uses it up |
| RouteRobustness.FullTickIsRobust | src/infra/websocket.py:403-421 | a tick that succeeds as a whole gives it back |
| RouteLimits.KeyIsLostIff | src/infra/websocket.py:373-386 | a key that lasts until the next tick can be lost in a steady run if and only if a delayed DEL is pending |
| RouteLimits.RegistrationIsLostIff | src/infra/websocket.py:373-386 | a registration that lasts until the next tick can be lost in a steady run if and only if an unregistration or a prune is pending |
| RouteLimits.ConnectedWithoutRoute | src/infra/websocket.py:114-145 | a run from the initial state to one with a pending DEL, and from there by that condition to the user connected without a route |
| RouteLimits.RouteLiveIff | src/infra/websocket.py:373-386 | a route is live at the end of any run exactly if a SET less than 60 seconds old, or one from before that still lasts, was not followed by a DEL |
| RouteLimits.PruneIsWrongIff | src/infra/websocket.py:334-343 | a member pruned after a GET that found no key has a live route if and only if such a SET fell between GET and SREM |
| RouteLimits.PruneCanDropLiveRoute | src/infra/websocket.py:334-343 | a run from the initial state that ends with the user connected, their route live and their instance unlisted |
| Delivery.ConnectionManager.Connect | src/infra/websocket.py:125-131 | the critical section is the connect action: the user's bucket gains exactly the socket, every other bucket is as before, the count is the new bucket's size, and the first socket starts the refresh task |
| Delivery.ConnectionManager.EnsureRefreshTask | src/infra/websocket.py:403-421 | at most one task per user |
| Delivery.ConnectionManager.Disconnect | src/infra/websocket.py:136-144 | the critical section is the disconnect action: the user's bucket loses exactly the socket, every other bucket is as before, the count is what is left, and the last socket takes bucket and task with it |
| Delivery.ConnectionManager.CleanupDisconnected | src/infra/websocket.py:291-307 | dropping pairs one by one, in any order, removes exactly them, empties exactly the buckets they emptied, stops those users' tasks and reports those users |
| Delivery.ConnectionManager.DropSocket | src/infra/websocket.py:298-306 | one iteration of that loop |
| Delivery.ConnectionManager.SendEach | src/infra/websocket.py:271-278 | each working socket of the snapshot is sent to once and each other one is collected |
| Delivery.ConnectionManager.SendToUserLocal | src/infra/websocket.py:250-289 | counts and sends to exactly the working sockets of the user, forgets exactly the failed ones, and does nothing for an empty or oversized message |
| Broadcast.Sorted | src/infra/websocket.py:334 | the members in ascending order |
| Broadcast.FirstAreChosen | src/infra/websocket.py:334 | slicing the sorted list takes exactly the members with fewer than 100 members below them |
| Broadcast.FewAreAllChosen | src/infra/websocket.py:334 | up to 100 members nobody is left out |
| Broadcast.Deliver | src/infra/websocket.py:241-289 | the receiving handler hands the message to the working sockets and unregisters the instance exactly when it failed on all of the user's |
| Broadcast.Visit | src/infra/websocket.py:335-348 | one member is either pruned, for want of a live route, or published to; other instances are untouched |
| Broadcast.PublishNext | src/infra/websocket.py:334-348 | one iteration of the loop serves the next member exactly if it is to be reached |
| Broadcast.Publish | src/infra/websocket.py:334-348 | the loop serves exactly the members that are live and listening, each once, and prunes no live one |
| Broadcast.DeliverTo | src/infra/websocket.py:250-289 | a delivery serves one instance, leaves the others alone, and changes the routes only as a delivery that failed everywhere does |
| Broadcast.PublishToChosen | src/infra/websocket.py:333-348 | the sorted first 100 members are pruned or published to |
| Broadcast.FallBack | src/infra/websocket.py:350-353 | the local delivery serves the sender alone |
| Broadcast.PublishOrFallBack | src/infra/websocket.py:332-353 | the receivers, or the sender alone if nothing was published, hand the message on and nobody else does |
| Broadcast.SendToUserWithBroadcast | src/infra/websocket.py:309-353 | the same, behind the envelope's size check, with the returned count; exactly the first 100 members without a live route are removed, and exactly the receivers on which the message failed everywhere unregister |
| Broadcast.ExactlyOnceWhenInSync | src/infra/websocket.py:309-353 | with routes in sync and at most 100 instances, what such a send leaves behind on every instance is one delivery to each working socket of the user and nothing else; none is missed and the fallback repeats nothing |
| Broadcast.EveryoneReachedIff | src/infra/websocket.py:309-353 | after a send every working socket of the user has been reached if and only if each instance that had one was among the first 100 members, live and listening, or was the sender when no member was |
| Broadcast.AtMostOnce | src/infra/websocket.py:271-276 | a send adds to the log of every instance, for every user and socket, one delivery or none, and one exactly for the working sockets of the addressed user on a receiver |
| Sends.StepInv | src/infra/websocket.py:309-357 | every action of interleaved sends keeps: a delivery for each instance reached and one on the sender for each local end and no other, members reached among those passed, an end in step with whom was reached, and a log that counts what each delivery has handed out |
| Sends.RunInv | src/infra/websocket.py:309-357 | so does every run |
| Sends.AtMostOnce | src/infra/websocket.py:309-357 | in every run from the start, with connects, failures, cleanups, route changes, lost messages, Redis errors and other sends in between, a message goes to sockets of its user alone and to each at most once, or twice on the sender's instance if a Redis command raised after it was reached |
| Sends.HandedExactly | src/infra/websocket.py:250-289 | a socket that stays and works gets a deliverable message once if its instance was reached and once more if it is the sender's and the send ended locally; twice exactly after such a late error |
| Sends.ExactlyOnceWhileRegistered | src/infra/websocket.py:309-357 | a socket that stays and works on an instance that stays registered, listening and among the first 100 gets each accepted message of its user exactly once, whatever happens in between, unless the send raised or was cancelled |
| Sends.LateErrorDeliversTwice | src/infra/websocket.py:355-357 | a run from the start in which the fallback of the exception handler delivers a second time |
| SendRuns.SendEnds | src/infra/websocket.py:309-353 | whatever happens meanwhile, a send takes at most 203 steps of its own and is nearer its end after each, because it reads at most 100 members |
| SendRuns.DeliveryEnds | src/infra/websocket.py:250-289 | so does a delivery: one step for each socket of its snapshot and one to end |
| SendRuns.SurroundingsAre | src/infra/websocket.py:334-343 | in every run which sockets are open, which deliveries have failed on one, and which routes are live, listed and listened to follows from the actions: a socket goes when it disconnects or when a delivery that failed on it is cleaned up, a member when it is removed or pruned |
| Pipeline.AcceptedIsDeliverable | src/infra/websocket.py:48-72 | every non-empty message whose envelope the sender accepts is within the receivers' limit, and they send its text unless it holds a lone surrogate |
| Pipeline.AcceptedExactlyOnce | src/infra/websocket.py:309-353 | so for every such message, with routes in sync, each working socket of the user gets it exactly once |
| JsonText.DumpsSizes | src/infra/websocket.py:32-45 | by induction over JSON values: the escaped form is ASCII and the non-escaped form has no more octets |
| JsonText.Utf8RoundTrip | src/infra/websocket.py:44-45 | the octets that are counted for a code point are ones from which it comes back |
| JsonText.EscapedIsPrintable | src/infra/websocket.py:31-38 | the escaped form is printable ASCII |
| JsonText.ScanRoundTrip | src/infra/websocket.py:36-41 | scanning an escaped string gives it back, with adjacent surrogate halves joined |
| JsonText.ValueRoundTrip | src/infra/websocket.py:36-41 | the parser undoes the printer and leaves the rest: an escaped value comes back with its surrogate halves joined, a raw one as it was |
| JsonText.LoadsDumps | src/infra/websocket.py:36-41 | loads after dumps gives the value, with surrogate halves joined if it was written in ASCII |
| JsonText.OtherEscapes | src/infra/websocket.py:40-41 | a reader takes hexadecimal letters of either case and an escaped slash |
| MessageSize.JoinIsEncodable | src/infra/websocket.py:44-45 | a decoded text can be encoded if and only if no surrogate of the original stood alone |
| MessageSize.JoinedEncodable | src/infra/websocket.py:48-59 | the receiver's rendering of a decoded value can be encoded if and only if none of its texts holds a lone surrogate |
| MessageSize.DumpsJoined | src/infra/websocket.py:36-41 | decoding does not change the escaped form |
| MessageSize.MessageFitsInEnvelope | src/infra/websocket.py:48-72 | the decoded message, non-escaped, has no more octets than the escaped envelope |
| MessageSize.ReceiveEnvelope | src/infra/websocket.py:232-262 | the receiver renders exactly the joined message, unless user or message is empty |
| MessageSize.SizeAgreement | src/infra/websocket.py:48-72 | what passes the sender's check is never dropped for size by hub or receiver; it is delivered if and only if no text holds a lone surrogate |
| MessageSize.SenderAgreement | src/infra/websocket.py:62-72 | the sender always encodes its envelope and accepts it exactly up to 262144 octets, and its local fallback is never over the limit |
| MessageSize.SocketsReadMessage | src/infra/websocket.py:227-268 | what a receiver sends reads back as the message that was sent, up to joined surrogate halves |
| MessageSize.LoneSurrogateIsLost | src/infra/websocket.py:44-45 | a message that is sent and cannot be rendered by the receiver |
| EventQueue.TerminatedIs | src/agents/core/base.py:425-435 | with capacity 2 or more, ending drops just enough of the oldest events and leaves the rest followed by the markers, the error marker included |
| EventQueue.StepInv | src/agents/core/base.py:420-542 | every action keeps: events handled plus queued are the produced ones less one block, markers behind events, outcome matching the producer's end |
| EventQueue.HandledInOrder | src/agents/core/base.py:437-460 | in every run events are handled in production order, and all that can be missing is one block of exactly as many events as the queue lacked room for the markers: at most one after a normal end and two after an error |
| EventQueue.ProducedIs | src/agents/core/base.py:444-452 | what counts as produced is what was put in the run |
| EventQueue.NothingMasked | src/agents/core/base.py:506-535 | a run that ends at a marker handled every other event, completes only if the producer did not fail, and raises only the producer's error |
| EventQueue.ConsumerProgress | src/agents/core/base.py:506-542 | after the producer's end the consumer always has a step and every step brings it nearer its end |
| EventQueue.NoDeadlock | src/agents/core/base.py:437-451 | before it, producer or consumer has a step |
| EventQueue.ConsumerFinishes | src/agents/core/base.py:506-542 | so every run of the consumer is finite and ends finished |
| EventQueue.BrokenOffDrains | src/agents/core/base.py:483-504 | a stream that is cancelled, interrupted, failed or met a failing handler hands over, whatever it does then, exactly the events among the next 100 items or all of them, stopping early only at one that times out, and ends as it broke off |
| EventQueue.DrainRun | src/agents/core/base.py:483-504 | every consumer-only run of a draining consumer hands over exactly that prefix |
| EventQueue.CapacityOneMasksError | src/agents/core/base.py:425-435 | with capacity 1 "done" evicts the error |
| EventQueue.EventStream.PutTerminalQueueItem | src/agents/core/base.py:425-435 | the evicting loop is the terminal put |
| EventQueue.EventStream.FinishStream | src/agents/core/base.py:452-460 | the producer's except and finally clauses |
| EventQueue.EventStream.Consume | src/agents/core/base.py:506-541 | under any schedule of producer, cancellations, interrupts and failing handlers the loop is a run of the protocol, and after any outcome but completion the consumer is about to drain up to 100 items |
| EventQueue.EventStream.ConsumeAll | src/agents/core/base.py:506-535 | on a terminated queue without interrupts the loop hands over all events in order and ends with the producer's outcome |
| EventQueue.EventStream.DrainEventQueue | src/agents/core/base.py:483-504 | the drain takes a prefix within its limit, stops early only at an event that times out, hands over exactly the prefix's events, and is the run of the protocol that ends the consumer |
| EventQueue.EventStream.Stream | src/agents/core/base.py:506-542 | the loop, and the drain after any outcome but completion, are one run of the protocol that ends the consumer |
| AgentFactory.StepInv | src/agents/core/base.py:707-732 | every action keeps: the lock held by whoever initialises an uncached id, the cache agreeing with the epoch's history, callers served from it |
| AgentFactory.RunInv | src/agents/core/base.py:707-732 | over any run, and no agent cached in an epoch is ever replaced in it |
| AgentFactory.OneAgentPerEpoch | src/agents/core/base.py:707-732 | under any interleaving, with failures and cancellations, all callers served for one id between two clears got the same agent |
| AgentFactory.RefusedIff | src/agents/core/base.py:707-732 | in every run a caller that has finished was refused if and only if its id is unknown, its own initialisation raised or it was cancelled, and its answer says which |
| AgentFactory.ServedWithInitialised | src/agents/core/base.py:729-732 | an initialisation that succeeds serves its caller with the agent it initialised, and until the next clear every later caller too |
| AgentFactory.OneInitialisation | src/agents/core/base.py:713-732 | two initialisations never overlap, and a waiting caller can go on however one ends |
| AgentFactory.FailureIsRetried | src/agents/core/base.py:713-732 | after a failure the next caller starts a fresh agent |
| AgentFactory.CloseAllClearsIff | src/agents/core/base.py:863-870 | close_all clears the cache if and only if no initialisation finished while it awaited the agents |
| AgentFactory.CloseAllRuns | src/agents/core/base.py:863-870 | a close_all runs from its begin until the last agent is closed or its iteration raises, and touches no other one |
| AgentFactory.Factory.Get | src/agents/core/base.py:709-711 | the look without the lock answers a cached agent and is the protocol's call; like each method below it keeps the invariant |
| AgentFactory.Factory.GetLocked | src/agents/core/base.py:713-728 | the look with the lock answers an agent cached by then, or starts one exactly for a known id |
| AgentFactory.Factory.Store | src/agents/core/base.py:729-732 | caching after a successful initialisation, and the end of the lock |
| AgentFactory.Factory.InitializationRaised | src/agents/core/base.py:713-730 | an initialisation that raises gives up the lock and caches nothing |
| AgentFactory.Factory.CancelGet | src/agents/core/base.py:713-732 | a cancelled caller gives the lock up if they hold it, and the cache stays |
| AgentFactory.Factory.BeginCloseAll | src/agents/core/base.py:863-867 | close_all up to its first agent, or at once to its end |
| AgentFactory.Factory.ContinueCloseAll | src/agents/core/base.py:865-870 | the iteration raises exactly if the cache has changed its size since it began |
| AgentFactory.Factory.Clear | src/agents/core/base.py:870 | the clear at the end of close_all |
| TextClip.ClipLengthIff | src/agents/core/recommendations.py:174-177 | a clip respects its limit if and only if the limit is 3 or more or nothing is clipped |
| TextClip.NormalizeIsTidy | src/agents/core/recommendations.py:170-171 | no whitespace at the ends and never two in a row |
| TextClip.NormalizeIdempotent | src/agents/core/recommendations.py:170-171 | normalising twice is normalising once |
| TextClip.ClipTidyIsTidy | src/agents/core/recommendations.py:174-177 | clipping keeps a text tidy |
| Prompt.SmallLimits | src/agents/core/recommendations.py:174-177 | when limit 1 or 2 gives a clip that fits, the largest proper limit gives the same clip |
| Prompt.SearchStep | src/agents/core/recommendations.py:207-216 | a step of the search keeps: nothing above the window fits, the best so far is the clip just below it |
| Prompt.ClipPromptToTokenBudget | src/agents/core/recommendations.py:194-218 | fits for any counter with nothing in the empty text, is the prompt if that fits, else a clip; with the character estimate and a budget of 2 or more it is the longest fitting clip of all |
| Prompt.FitHistory | src/agents/core/recommendations.py:387-400 | the history search ends with nothing or with a clip whose prompt fits; where fitting is downward closed from limit 3 on it ends with the longest such clip |
| Prompt.PromptIsSearchable | src/agents/core/recommendations.py:364-385 | with the character estimate it is, for every history that is too long |
| Prompt.FitPrompt | src/agents/core/recommendations.py:382-409 | the budget is kept, the whole prompt is kept if it fits, and the text is cut only when the current messages alone are too long |
| Prompt.FillPrompt | src/agents/core/recommendations.py:382-409 | the same for the JSON of given messages; with the character estimate a history that is too long is replaced by its longest fitting clip of limit 3 or more |
| Prompt.BuildRecommendPrompt | src/agents/core/recommendations.py:358-409 | the same for normalised and clipped messages within their limits |
| Prompt.LimitedHistoryIs | src/agents/core/recommendations.py:377-381 | the history is kept whole up to 32000 characters and the room beside the current messages, and clipped to that otherwise |
| PromptJson.PromptReadsBack | src/agents/core/recommendations.py:365-375 | behind its label the prompt is JSON from which the history and the current messages come back, whatever characters they hold |
| History.GroupAllIsByRun | src/agents/core/recommendations.py:306-331 | for events with run ids the loop's turns are one per run, in order of first appearance, each folded from exactly that run's events |
| History.TurnHolds | src/agents/core/recommendations.py:327-334 | a turn's question is its last user message, and its answer its first chunk or summary followed by every later chunk |
| History.NoRunsApart | src/agents/core/recommendations.py:325-326 | events without a run id open a turn each |
| History.AllTurnsAreRecent | src/agents/core/recommendations.py:338 | no turn is empty, so all are packed |
| History.SnippetReads | src/agents/core/recommendations.py:341-345 | a turn within its limits is shown as it is under its true number |
| History.GroupTurns | src/agents/core/recommendations.py:306-331 | the loop over all events computes that grouping, and its texts are tidy |
| History.ClippedFillsBudget | src/agents/core/recommendations.py:341-348 | a clipped newest snippet leaves no room for another |
| History.PackSnippets | src/agents/core/recommendations.py:333-352 | keeps the longest run of newest snippets that fits, in full and in order, or the newest alone, clipped |
| History.PackingLengthIff | src/agents/core/recommendations.py:333-355 | the joined text fits if and only if the limit is 3 or more or there is nothing to pack |
| History.FormatHistoryContext | src/agents/core/recommendations.py:300-355 | the result is the join of such a packing of the turns under their true numbers, and fits exactly then |
| Base64.EncodeAppendIff | src/agents/core/node_utils.py:229-236 | encoding in two pieces is encoding the whole if and only if the first piece is a multiple of three octets |
| Base64.File.Read | src/agents/core/node_utils.py:232 | a read returns the next octets and moves on |
| Base64.EncodeFile | src/agents/core/node_utils.py:229-236 | the chunked encoding of every file is the encoding of the whole file |
| Base64.AtobUndoesEncode | src/agents/core/node_utils.py:229-236 | decoding gives every byte string back |
| Base64.UrlBase64ToUint8Array | frontend/src/hooks/useWebPush.ts:19-28 | the indexed loop fills the array with the decoded octets |
| Base64.UnpaddedUrlRoundTrip | frontend/src/hooks/useWebPush.ts:19-28 | recomputing the padding of an unpadded URL-safe key gives every byte string back |
| Base64.BadLengthFails | frontend/src/hooks/useWebPush.ts:19-28 | a key of a length one above a multiple of four cannot be decoded |
| UploadUrl.UnquoteQuote | src/agents/core/node_utils.py:173-176 | percent decoding undoes percent encoding |
| UploadUrl.UnquoteAppend | src/agents/core/node_utils.py:183-184 | decoding goes piece by piece where no escape can straddle the cut |
| UploadUrl.UnquoteAnyCase | src/agents/core/node_utils.py:183-184 | an escape is decoded whichever case its letters have |
| UploadUrl.SchemeGoes | src/agents/core/node_utils.py:179-184 | exactly a scheme and its colon go in front of the path |
| UploadUrl.PathAppend | src/agents/core/node_utils.py:183-184 | the parsed path of base plus key path is the base's path plus the key path |
| UploadUrl.FirstMarker | src/agents/core/node_utils.py:185-189 | the marker found is the printed one if and only if none starts earlier, overlap included |
| UploadUrl.KeyFound | src/agents/core/node_utils.py:185-190 | the key behind it is the printed key if and only if none starts earlier |
| UploadUrl.LoneSlashLosesKey | src/agents/core/node_utils.py:183-190 | on a base that is a lone slash the first segment becomes an authority and the key is lost |
| UploadUrl.ParseUndoesPrint | src/agents/core/node_utils.py:173-190 | parsing the printed URL gives the key without leading slashes if and only if the base is no data URL, no lone slash and holds no earlier marker |
| UploadUrl.EmptyKeyHasNone | src/agents/core/node_utils.py:173-190 | a key of slashes only parses to no key |
| SkillName.SanitizedIsNormal | frontend/src/utils/skillFilters.ts:9-19 | the output is non-empty, allowed, without double or outer dashes; it keeps the name's characters in order, or is the fallback if there are none |
| SkillName.UnchangedIffNormal | frontend/src/utils/skillFilters.ts:9-19 | a name is unchanged if and only if it is in normal form |
| SkillName.SanitizeIdempotent | frontend/src/utils/skillFilters.ts:9-19 | sanitising twice is sanitising once |
| SkillName.WhatIsAllowed | frontend/src/utils/skillFilters.ts:12-14 | exactly ASCII letters, digits and three marks, kana, CJK ideographs and hangul syllables are kept |
| SessionList.DedupFacts | frontend/src/hooks/useSession.ts:12-19 | deduplication keeps the ids, makes them distinct and invents nothing |
| SessionList.Dedup | frontend/src/hooks/useSession.ts:12-19 | the filter with its seen-set keeps the first session of each id |
| SessionList.ReconciledFacts | frontend/src/hooks/useSession.ts:21-45 | a reconciled list has distinct ids: those of the response and, unless missing ones go, of the list, without the tombstones |
| SessionList.ReconcileIdempotent | frontend/src/hooks/useSession.ts:21-45 | reconciling twice with one response is reconciling once |
| SessionList.FreshCopyWins | frontend/src/hooks/useSession.ts:21-45 | a session of the response is shown as the response has it |
| SessionList.ReconcileSessionList | frontend/src/hooks/useSession.ts:21-45 | the loops compute the reconciled list |
| SessionList.StepInv | frontend/src/hooks/useSession.ts:86-217 | every operation, with any response, keeps ids distinct and disjoint from the tombstones |
| SessionList.RunInv | frontend/src/hooks/useSession.ts:86-217 | so does every run |
| SessionList.RemovedStaysAway | frontend/src/hooks/useSession.ts:201-217 | a session removed from a list with tombstones never reappears in it, however stale the responses, until it is prepended or updated |
| SessionList.WhatIsShown | frontend/src/hooks/useSession.ts:86-217 | in every run, with responses of any content and age, which copy of a session is shown and whether it counts as removed follow from the operations alone |
| SessionList.OrderOfShown | frontend/src/hooks/useSession.ts:21-45 | a refresh shows the response's sessions first, a new session leads the list, an update moves nothing |
| SessionList.LastAnswerDecides | frontend/src/hooks/useSession.ts:86-141 | the last answer of a run decides whether there is more, and the list counts as loading from the begin of a fetch to its end |
| SessionList.OnePageAtATime | frontend/src/hooks/useSession.ts:86-95 | while a page is on its way no other one is asked for, and after a failure it is asked for again |
| SessionList.StartsAfresh | frontend/src/hooks/useSession.ts:86-95 | without more nothing is asked for, and a reset or a new filter begins at the front again |
| SessionList.PageExtendsPrefix | frontend/src/hooks/useSession.ts:86-130 | without interference each page extends the shown prefix of the server's list, and the last one completes it |
| SessionList.FirstPageIsPrefix | frontend/src/hooks/useSession.ts:112-115 | a reset shows the first page |
| SessionList.RefreshShowsPrefix | frontend/src/hooks/useSession.ts:166-199 | a soft refresh of a filtered list shows the answering server's first sessions, as many as it asked for |
| SessionList.RefreshNeverShrinks | frontend/src/hooks/useSession.ts:125-128 | in every run of fetches and refreshes without removals, answered from one server list and however they overlap, the next soft refresh asks for all that is shown, up to 100, and shows no fewer |
| SessionList.RefreshShrinksIff | frontend/src/hooks/useSession.ts:125-128 | with tombstones, a list that shows a prefix shrinks in a refresh if and only if a visible session lies between what is asked for and what was loaded |
| SessionList.HiddenSessionShrinks | frontend/src/hooks/useSession.ts:125-128 | as when a session of the second page was removed before that page came |
| SessionList.PagingShows | frontend/src/hooks/useSession.ts:98-199 | after the first page and any sequence of further pages and soft refreshes exactly the server's first sessions are shown: 20 more for a page, as many as before but 20 to 100 after a refresh |
| SessionList.FilteredSessionList.BeginFetch | frontend/src/hooks/useSession.ts:86-95 | what a fetch changes before its request, and the skip it captures |
| SessionList.FilteredSessionList.FinishFetch | frontend/src/hooks/useSession.ts:98-141 | what its response changes, with the captured skip |
| SessionList.FilteredSessionList.FailFetch | frontend/src/hooks/useSession.ts:131-140 | a failed request changes the loading flags only |
| SessionList.FilteredSessionList.ChangeFilter | frontend/src/hooks/useSession.ts:152-159 | a new filter empties the list and keeps its tombstones |
| SessionList.FilteredSessionList.BeginSoftRefresh | frontend/src/hooks/useSession.ts:168-171 | a soft refresh asks for 20 to 100 sessions, as many as are loaded |
| SessionList.FilteredSessionList.FinishSoftRefresh | frontend/src/hooks/useSession.ts:166-199 | what a soft refresh's response changes |
| SessionList.FilteredSessionList.PrependSession | frontend/src/hooks/useSession.ts:201-207 | lifts the tombstone and leads the list, once |
| SessionList.FilteredSessionList.RemoveSession | frontend/src/hooks/useSession.ts:209-212 | sets the tombstone and hides the session |
| SessionList.FilteredSessionList.UpdateSession | frontend/src/hooks/useSession.ts:214-217 | lifts the tombstone and replaces the session in place |
| ScheduledList.StepShows | frontend/src/components/sidebar/ScheduledTaskSidebarItem.tsx:119-198 | what each operation does to the ids of a scheduled task's list, and that it keeps them distinct |
| ScheduledList.RunDistinct | frontend/src/components/sidebar/ScheduledTaskSidebarItem.tsx:119-198 | every run keeps them distinct |
| ScheduledList.StaysAwayIff | frontend/src/components/sidebar/ScheduledTaskSidebarItem.tsx:141-198 | a session the list does not show stays away through a run if and only if no page, reset or refresh response of the run holds it and nothing prepends it |
| ScheduledList.ShownAtEndIff | frontend/src/components/sidebar/ScheduledTaskSidebarItem.tsx:119-198 | what the list shows at the end of a run: what an operation brought and none later dropped, or what was there and none dropped |
| ScheduledList.WhatTaskShows | frontend/src/components/sidebar/ScheduledTaskSidebarItem.tsx:119-198 | in every run which copy of a session is shown follows from the operations alone |
| ScheduledList.OrderOfTask | frontend/src/components/sidebar/ScheduledTaskSidebarItem.tsx:170-198 | a refresh shows the response in its order, a new session leads, an update moves nothing |
| ScheduledList.LastTaskAnswerDecides | frontend/src/components/sidebar/ScheduledTaskSidebarItem.tsx:139-162 | the last answer decides whether there is more, and the list counts as loading from the begin of a fetch to its end |
| ScheduledList.OneTaskPageAtATime | frontend/src/components/sidebar/ScheduledTaskSidebarItem.tsx:119-130 | one page at a time, and again after a failure |
| ScheduledList.TaskPagingShows | frontend/src/components/sidebar/ScheduledTaskSidebarItem.tsx:119-183 | pages and soft refreshes show exactly the server's first sessions, 20 more for a page and 20 to 100 after a refresh |
| ScheduledList.RemovedComesBack | frontend/src/components/sidebar/ScheduledTaskSidebarItem.tsx:170-194 | a removed session is shown again after a refresh whose response is from before |
| ScheduledList.WithoutFacts | frontend/src/components/sidebar/ScheduledTaskSidebarItem.tsx:192-194 | a removal takes out exactly the removed sessions |
| ScheduledList.ScheduledTaskList.BeginFetch | frontend/src/components/sidebar/ScheduledTaskSidebarItem.tsx:119-130 | what a fetch changes before its request, and the skip it captures |
| ScheduledList.ScheduledTaskList.FinishFetch | frontend/src/components/sidebar/ScheduledTaskSidebarItem.tsx:138-152 | what its response changes, with the captured skip and no filter |
| ScheduledList.ScheduledTaskList.FailFetch | frontend/src/components/sidebar/ScheduledTaskSidebarItem.tsx:153-162 | a failed reset empties the list |
| ScheduledList.ScheduledTaskList.BeginSoftRefresh | frontend/src/components/sidebar/ScheduledTaskSidebarItem.tsx:170-173 | a soft refresh asks for 20 to 100 sessions, as many as are loaded |
| ScheduledList.ScheduledTaskList.FinishSoftRefresh | frontend/src/components/sidebar/ScheduledTaskSidebarItem.tsx:170-180 | the response replaces the list |
| ScheduledList.ScheduledTaskList.PrependSession | frontend/src/components/sidebar/ScheduledTaskSidebarItem.tsx:185-190 | leads the list, once |
| ScheduledList.ScheduledTaskList.RemoveSession | frontend/src/components/sidebar/ScheduledTaskSidebarItem.tsx:192-194 | takes the session out and remembers nothing |
| ScheduledList.ScheduledTaskList.UpdateSession | frontend/src/components/sidebar/ScheduledTaskSidebarItem.tsx:196-198 | replaces the session in place |
| Sidebar.PlacedFacts | frontend/src/hooks/useSessionSidebarActions.ts:131-169 | after a move a project list or the uncategorised list shows the session, first, exactly if it belongs there and has it tombstoned exactly if not; every other session and tombstone is as before |
| Sidebar.ToggledMembership | frontend/src/hooks/useSessionSidebarActions.ts:275-304 | a toggle changes membership only in the favourites list, which then holds the session exactly if it is a favourite |
| Sidebar.ToggledCopyIff | frontend/src/hooks/useSessionSidebarActions.ts:275-304 | what a list shows of the session afterwards is the updated copy if and only if the toggle looks at the list or the list had that copy already |
| Sidebar.ScheduledCopyIsStale | frontend/src/hooks/useSessionSidebarActions.ts:285-300 | a scheduled-task list that shows the session as it was before still does |
| Sidebar.DeletedFacts | frontend/src/hooks/useSessionSidebarActions.ts:463-485 | after a batch deletion a list with tombstones shows none of the deleted, has all of them tombstoned and still has the others |
| Sidebar.DeletedStaysAway | frontend/src/hooks/useSessionSidebarActions.ts:463-485 | so no deleted session comes back to such a list, whatever the responses, until it is prepended or updated |
| Sidebar.DeletedFromTaskStaysAwayIff | frontend/src/hooks/useSessionSidebarActions.ts:463-485 | to a scheduled-task list it comes back exactly when a later response or a prepend holds it |
| Sidebar.SidebarActions.WhereMoved | frontend/src/hooks/useSessionSidebarActions.ts:146-154 | a moved session belongs to the list of its project, or the uncategorised list if it has none, and to the favourites' if it is one |
| Sidebar.SidebarActions.RemoveEverywhere | frontend/src/hooks/useSessionSidebarActions.ts:138-144 | the three removals reach every mounted list: with a tombstone where the list has them, as a plain removal in the scheduled-task lists |
| Sidebar.SidebarActions.ApplyMovedSession | frontend/src/hooks/useSessionSidebarActions.ts:131-155 | removals then prepends leave every list with tombstones placed, also when target and favourites are one list, and every scheduled-task list without the session and otherwise as it was |
| Sidebar.SidebarActions.ToggleProjects | frontend/src/hooks/useSessionSidebarActions.ts:288-300 | the loop over project lists, with the favourites' own branch |
| Sidebar.SidebarActions.HandleToggleFavorite | frontend/src/hooks/useSessionSidebarActions.ts:275-304 | the handler leaves every project list and the uncategorised list as a toggle should, scheduled-task lists untouched |
| Sidebar.SidebarActions.ConfirmBatchDelete | frontend/src/hooks/useSessionSidebarActions.ts:463-485 | the nested loops take every deleted id out of every mounted list, with tombstones where the list has them, whatever the order and repetitions of the ids |
| LocaleTree.SetFailsIff | frontend/scripts/extract-i18n.ts:37-50 | insertion throws if and only if a leaf stands on the way |
| LocaleTree.SetGet | frontend/scripts/extract-i18n.ts:37-50 | afterwards the path holds the value, what lay below it is gone and every other leaf is as before |
| LocaleTree.SetWellFormed | frontend/scripts/extract-i18n.ts:37-50 | objects keep each key once |
| LocaleTree.JoinSplit | frontend/scripts/extract-i18n.ts:42 | joining undoes splitting at the dots |
| LocaleTree.SplitJoin | frontend/scripts/extract-i18n.ts:42 | splitting undoes joining for keys without dots |
| LocaleTree.PlainKeyIff | frontend/scripts/extract-i18n.ts:42 | a key names a path that is printed back as that key unless it starts with a dot |
| LocaleTree.FullPathIff | frontend/scripts/extract-i18n.ts:21-34 | a flattened key is the dotted path if and only if it does not start with an empty key |
| LocaleTree.AllKeysAreLeafKeys | frontend/scripts/extract-i18n.ts:21-34 | flattening yields exactly the keys of the leaf paths |
| LocaleTree.InsertedKeysIff | frontend/scripts/extract-i18n.ts:37-50 | an insertion adds exactly its key to the flattened keys if and only if no leaf lies below it |
| LocaleTree.OldLeafKeptIff | frontend/scripts/extract-i18n.ts:231-244 | the add loops keep an old leaf as it was if and only if no added key lies above it |
| LocaleTree.ExtractedKeysPresentIff | frontend/scripts/extract-i18n.ts:212-244 | after the add loops every extracted key is present if and only if no leaf blocks a missing key and no missing key lies above an extracted one |
| LocaleTree.Locale.SetNestedValue | frontend/scripts/extract-i18n.ts:37-50 | the walk down the parts, making objects where they are missing, is the insertion, and throws exactly where it fails |
| LocaleTree.Locale.FindMissing | frontend/scripts/extract-i18n.ts:212-221 | the filter for extracted keys the file lacks |
| LocaleTree.Locale.AddKeys | frontend/scripts/extract-i18n.ts:231-244 | the loop that adds them one by one |
| LocaleTree.Locale.Update | frontend/scripts/extract-i18n.ts:206-244 | one file's update succeeds with every extracted key present exactly under that condition |
| LocaleTree.SortPreservesLeaves | frontend/scripts/extract-i18n.ts:246-259 | sorting keeps every leaf under its path |
| LocaleTree.SortIsOrdered | frontend/scripts/extract-i18n.ts:246-259 | and puts the keys of every object in the order of their UTF-16 code units |
| LocaleTree.FirstDifference | frontend/scripts/extract-i18n.ts:251 | in that order the first difference decides and a text comes before its continuations |
| LocaleTree.SortPreservesKeys | frontend/scripts/extract-i18n.ts:246-259 | so the flattened keys are the same |
| AuthCache.RoomyFacts | src/api/deps.py:45-52 | making room keeps the bound and drops an unexpired entry if and only if 2048 unexpired ones fill the cache and it is the oldest |
| AuthCache.ExpiredPopped | src/api/deps.py:47-49 | popping the collected keys one by one leaves the unexpired entries, in order |
| AuthCache.SetInv | src/api/deps.py:44-54 | a store keeps the bound and the agreement with the ideal map |
| AuthCache.GetInv | src/api/deps.py:32-41 | so does a lookup, and a hit is the ideal answer |
| AuthCache.EveryHitIsIdeal | src/api/deps.py:23-54 | over every run every hit is the last payload stored for the token since the last clear, less than 45 seconds old, and the size stays within 2048 |
| AuthCache.SetComplete | src/api/deps.py:44-54 | a store loses nothing unexpired unless unexpired entries fill the cache |
| AuthCache.RoomyCacheIsIdeal | src/api/deps.py:23-54 | in runs where they never do, hits and misses are exactly the ideal map's |
| AuthCache.UserCache.ClearAuthCache | src/api/deps.py:27-29 | empties the cache |
| AuthCache.UserCache.GetCachedUser | src/api/deps.py:32-41 | answers and pops an expired entry |
| AuthCache.UserCache.SetCachedUser | src/api/deps.py:44-54 | purges, evicts and stores |
| AuthCache.UserCache.PurgeExpired | src/api/deps.py:47-49 | removes exactly the expired entries, keeping order |
| AuthCache.UserCache.EvictOldest | src/api/deps.py:50-52 | the eviction loop drops just enough of the oldest |

## Left out

- The hub's `start`, `stop` and `stop_if_idle` while it runs, and cancellation of its listener: `Stop` only clears the running flag.
- The event by which `start` waits for the listener to be ready, and pub/sub notices other than messages, which the listener skips.
- How a semaphore hands a permit to its first waiter; the model gives it to the dispatch loop, its only user.
- That closing a pub/sub object ends its listen pass is assumed, also while its `subscribe` is still awaited; a client that takes such a close for a no-op could go on listening with the old snapshot.
- The hub's lock, which only the listener takes; a close that fails counts as a close, and connection ids are never reused.
- Fairness: that enabled internal steps of the hub are taken at all. `EventuallyListening` bounds them and says what holds when none is left.
- Cancellation of a Redis command that is already on its way; Redis commands take effect when issued.
- Redis errors in `Broadcast`, where nothing fails; `Sends` has them at every command, whether or not the command took effect.
- `broadcast` to all users, `start_pubsub_listener`, `stop_pubsub_listener` and removal of all routes at shutdown.
- Interleaving of several sends, and connects during a send, in `Broadcast`; `Sends` has both, and takes the writes, expiries and prunes of routes that the other modules study as steps of the environment.
- In `Sends`, subscribers other than one listener per instance; the cleanup of failed sockets is one step, as it holds the lock.
- An empty user id, and the failure to encode a lone surrogate, in `Broadcast`; `MessageSize` has both, and `Pipeline` excludes them.
- JSON numbers keep their text, so `NaN`, infinities and a number too small to be told from zero are not told apart; object keys that become equal when surrogates are joined are both kept.
- Items lost when a timeout and a queued item coincide in `asyncio.wait_for`.
- A producer task that is cancelled before its first step: it never enters its `try`, so no marker is put and the consumer waits for an interrupt.
- EventQueue.EventStream.ConsumeAll: does not cover interrupts, cancellations and events put meanwhile, because `EventStream.Consume` does.
- Empty event payloads, which a drain counts but does not hand on.
- Event presentation, tracing, usage accounting and the finalisation of a stream; the event source and the interrupt checks are actions of the environment.
- What an agent does while it is being closed but still cached, and an iteration of `close_all` over a cache that was replaced by one of the same size.
- The tokenizer, which is any function that counts nothing in the empty text and never raises; with it, only that the result fits is claimed.
- Prompt wording, personas, and the extraction of events from graph messages.
- Reads that return less than asked for before the end of a file; by `EncodeAppendIff` the encoding is then wrong unless they are multiples of three.
- Texts that are not UTF-8: `UploadUrl` works on octets, and the authority checks of `urlsplit` are a parameter.
- React's batching and effects, stale closures over a list's sessions, request errors beyond clearing the loading flags, unread counters, and the other handlers of the sidebar.
- That no session is skipped when a page fetch overlaps a soft refresh: the fetch keeps the skip it captured, and gaps can occur.
- LocaleTree.Locale.SetNestedValue: does not model updating the tree in place, because the tree is a value held by the object; what a failed update leaves behind and inherited names such as `constructor` are not modelled either.
- LocaleTree.SortIsOrdered: does not model the early place of integer-like keys, which an object's fields have whatever the order of insertion, nor keys with lone surrogates.
- Deep copies of cached user payloads, and role or permission lookups.
- Upload of images, attachment formats other than URLs, and the rest of the two utility files.
