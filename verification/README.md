# Agent social gateway: a verified model

This project models the stateful core of the agent social gateway and proves what its operations promise.
`dafny verify dfyconfig.toml` checks all of it.

The gateway connects agents. Agents open sessions, and each session has a transport. Routers send messages to
the sessions of an agent or queue them in a table until the agent comes back. Around this there are a rate
limiter, an event stream with its printer and parser, registries of subscribers with bounded channels, a social
graph with an event log and a reputation score, a task store, token budgets, an approval queue, named counters
and a timeline read page by page.

Three forms are used.

- **Step machines.** What runs concurrently is a `State`, a `Step` and a function `Apply`; a step that is not
  enabled changes nothing, so that every list of steps is an interleaving. One step is what the program does
  under one lock or in one statement. The environment's answers (does a send, an insert or a scan succeed, in
  which order does a map yield its keys) are part of the step. An invariant is kept by each step and the
  theorems speak of `Run(INIT, steps)` for all lists of steps.
- **Classes.** What the program does in place is a class whose methods change fields, maps and arrays. Each
  method is proved against a function of its old state, and the lemmas speak of that function.
- **Functions.** The reader's, the bucket's and the tables' meaning.

| file | what it models |
|---|---|
| `DeliveryProtocol.dfy` | sends, publishes, relays and drains interleaved with sessions that open and close: what is lost and what is not |
| `DeliveryProgress.dfy` | that calls and drains come to their ends, and what they have then sent, queued and deleted |
| `Sessions.dfy`, `Routing.dfy`, `PubSub.dfy`, `Groups.dfy` | the session manager, the pending table and the three routers, one call after the other |
| `Router.dfy` | the message router over the three, and what whole runs of requests conserve |
| `Common.dfy` | what several of them share |
| `RateLimit.dfy` | token buckets with lazy refill and garbage collection |
| `Sse.dfy` | printing and reading the event stream (sections 9.2.5 and 9.2.6 of the WHATWG HTML Living Standard) |
| `Subscribers.dfy` | the registries of task and feed subscribers, their shared slices and bounded channels |
| `Social.dfy`, `SocialEffects.dfy`, `SocialGraph.dfy` | the social tables, the event log, the reputation score and routing by relationship |
| `Reputation.dfy` | endorsements whose INSERT, COUNT and UPDATE interleave |
| `Tasks.dfy` | task rows that hold their state twice, handlers and cancels (section 6.3 of the A2A specification v0.3) |
| `Budget.dfy`, `Approval.dfy`, `Counters.dfy`, `Timeline.dfy` | budgets, approvals, counters, cursor paging |

Some promises do not hold of the code as one would first state them. The project then says exactly when they
hold, or shows the run that breaks them:

- A routing call that returned nil may have lost a copy: when the recipient is online without any transport
  (`NilTransportLoses`), when a publish or relay could not insert into the queue (`FailedInsertLoses`), or when
  a drain found the agent online without any transport and deleted the row (`NilTransportDeletes`).
  `DeliveryProtocol.LostExactlyWhen` says of every copy in every run whether it is lost, and
  `Routing.LostExactlyWhen`, `Routing.DeletedToNobodyExactlyWhen` and `Routing.DirectRouter.Send` say it of
  single calls by what the caller could have looked up.
- The token budget accepts a request that does not fit when the sum wraps around (`AcceptedExactlyWhen`,
  `WrapBreaksBound`).
- `Subscribe` and `Unsubscribe` change the cache before the table, and the statement may fail.
  `CacheAgreesExactlyWhen` says of every pair, over whole runs, when the two agree.
- A cut stream hands on a prefix of its events, except when it is cut behind a lone carriage return and the
  event collected there is not the next one of the stream (`PrefixExactlyWhen`, `CutCanDispatchTooMuch`).
- A printed event comes back exactly when its fields are as `ComesBackExactlyWhen` says.
- The queue of an agent is first in, first out only as far as the clock tells two messages apart
  (`FirstQueuedFirstExactlyWhen`).
- An event leaves the log and the tables in agreement exactly when `AgreesExactlyWhen` says so: an unlike whose
  statement fails is logged all the same, and a failed log insert is not reported.
- The stored reputation lags behind, and can even fall, when two endorsements of one agent overlap
  (`Reputation.RaceStoresLess`) or a statement fails. `Reputation.ScoreRightExactlyWhen` and
  `Reputation.FallsExactlyWhen` say exactly when, over every interleaving, `Social.ScoreRightExactlyWhen` says it
  of one endorsement, and `Reputation.CarefulScoresAreRight` says what a caller can do about it.
- CANCELED in the column of a task is final exactly when its handler has finished
  (`CanceledIsFinalOnceHandlerIsDone`).

## Model

| member | source | states |
|---|---|---|
| DeliveryProtocol.LostExactlyWhen | internal/session/manager.go:143-159 | over every interleaving and whatever fails, a copy that its call has done with is lost exactly when the call found sessions but no transport, or could not queue it while nobody had it, or when a drain that found sessions but no transport deleted it and no other drain delivered it |
| DeliveryProtocol.NoLoss | internal/router/direct.go:28-89 | over every interleaving of sends, publishes, relays, drains and sessions that open, close or time out, in which a call or drain that finds sessions finds a transport among them and no insert of a publish or relay fails for a copy nobody has, once a call has returned nil each recipient's copy was taken by a transport or is a pending row |
| DeliveryProtocol.NothingMisdelivered | internal/session/manager.go:143-159 | in every run no copy goes to another agent's session |
| DeliveryProtocol.DroppedForGood | internal/router/pubsub.go:146-149 | a copy that its call has dropped is lost in every later run too |
| DeliveryProtocol.StepKeepsInv | internal/session/manager.go:132-159 | every step keeps the protocol's invariant, whatever the environment answers, also when the agent goes offline between the online check and the send |
| DeliveryProtocol.DeleteKeepsInv | internal/router/direct.go:81-83 | a row is deleted only when its copy was taken or the drain found sessions without a transport, also when two drains hold the same row |
| DeliveryProtocol.UntakenExactlyWhen | internal/session/manager.go:149-158 | a send without an error has reached nobody exactly when none of the sessions it found has a transport |
| DeliveryProgress.EveryCallCanReturn | internal/router/group.go:122-157 | from every state a call can come to, its own steps alone bring it to its end; it returns nil if it has not failed before, every session of a recipient that has a transport has then taken the copy, and exactly the copies of those without a session, or with a failed send, have been queued |
| DeliveryProgress.NewCallServesAll | internal/router/pubsub.go:69-104 | from every state of a run a new send, publish or relay by itself has every recipient's sessions that have a transport take its copy, queues the copies of just those recipients without a session, and gives nobody else anything |
| DeliveryProgress.FanOutsReturnNil | internal/router/pubsub.go:69-104 | in every run, whatever fails, no publish or relay reports an error |
| DeliveryProgress.EveryDrainCanFinish | internal/router/direct.go:57-89 | a drain can always finish; with nothing failing exactly the rows it has sent, before or on the way, leave the queue, every session of the agent that has a transport has taken each of those on the way, and with the agent online these are all the rows it has not passed, which it reports |
| DeliveryProgress.NewDrainMovesAll | internal/router/direct.go:57-89 | from every state a new drain by itself empties the queue of an agent that is online, reports its size, and has every session with a transport take every copy of it; it changes no other row, and none at all when the agent is offline |
| DeliveryProgress.SessionsExactlyWhen | internal/session/manager.go:52-130 | an agent has a session behind a step exactly when the step opens it, or it was there and the step does not drop it |
| DeliveryProgress.CountedRowsAreGone | internal/router/direct.go:81-88 | in every run, a finished drain none of whose DELETE statements failed has counted as many different rows as it reports, and all of them are gone from the queue for good |
| DeliveryProgress.FailedDrainStops | internal/router/direct.go:75-78 | whatever happens, a drain takes up and counts no further row once a send of it has failed |
| DeliveryProtocol.CallsStayInPlace | internal/router/pubsub.go:69-104 | in every run, whatever fails, a call that serves somebody has not served everybody, which is what a call needs to be able to return |
| DeliveryProtocol.NilTransportLoses | internal/session/manager.go:151-157 | a run in which a session without a transport makes a send return nil although nobody has the copy |
| DeliveryProtocol.FailedInsertLoses | internal/router/pubsub.go:146-149 | a run in which a publish returns nil although the insert into the queue failed and nobody has the copy |
| DeliveryProtocol.NilTransportDeletes | internal/router/direct.go:75-83 | a run in which a drain over a session without a transport deletes a row that nobody has got |
| Sessions.TransportsAreClosedExactlyOnce | internal/session/manager.go:110-130 | over every interleaving of CloseSession, cleanup and Close each session leaves the map once, and its transport is closed never twice and once its remover has finished |
| Sessions.CloserCloses | internal/session/manager.go:110-130 | whatever happens between its two critical sections, closing a session that is there takes it out and closes its transport once |
| Sessions.InMapExactlyWhen | internal/session/manager.go:191-213 | a session is in the map behind a step exactly when the step creates it, or it was there and is neither closed nor idle for more than 300 seconds at a cleanup; only creating and touching move its time |
| Sessions.SessionManager.CreateSession | internal/session/manager.go:52-80 | a new active session under a new id, with whatever transport, and no other session touched |
| Sessions.SessionManager.TouchSession | internal/session/manager.go:101-108 | the time of the session moves and nothing else; an unknown id is ignored |
| Sessions.SessionManager.CloseSession | internal/session/manager.go:110-130 | the session leaves the map, exactly its transport is closed once, and it is marked as closed; not found exactly when it was not there |
| Sessions.SessionManager.IsAgentOnline | internal/session/manager.go:132-141 | true exactly when the agent has an active session, with or without a transport |
| Sessions.SessionManager.GetSessionsByAgent | internal/session/manager.go:89-99 | the agent's active sessions, each once |
| Sessions.SessionManager.SendToAgent | internal/session/manager.go:143-159 | succeeds exactly when the agent has a session and every session of it that has a transport took the data; nobody else is sent anything, and nobody twice |
| Sessions.SessionManager.Cleanup | internal/session/manager.go:191-213 | exactly the sessions last active at most 300 seconds ago stay, as they were, and every transport is closed once for each of the others that uses it |
| Sessions.SessionManager.Close | internal/session/manager.go:215-228 | the map is empty and every transport was closed once for each session that used it |
| Routing.DirectRouter.Send | internal/router/direct.go:28-55 | ok means sent or queued, never both; what is queued is one row behind the others with the next id, the recipient, the message and the time of the call, and what is sent goes to the recipient's sessions; a send that is ok leaves no trace exactly when the agent is online and none of its sessions has a transport; with one session per agent the ledger of accepted and pending copies grows by exactly this copy, and by nothing when it failed |
| Routing.DirectRouter.DeliverPending | internal/router/direct.go:57-89 | a prefix of the agent's queue in query order moves to its sessions, the rest and all other queues stay, the number moved is returned, and with one session per agent the ledger does not change; when the query fails nothing happens |
| Routing.DrainsInOrder | internal/router/direct.go:57-79 | the messages of a drain are handed on in the order of the query, each to the agent's sessions before the next |
| Routing.DeletedToNobodyExactlyWhen | internal/router/direct.go:75-83 | a row that a drain deletes went to nobody exactly when none of the agent's sessions has a transport |
| Routing.DirectRouter.SendRows | internal/router/direct.go:64-79 | sends row after row up to the first failure and collects the ids of just those sent |
| Routing.DirectRouter.DeleteAll | internal/router/direct.go:81-83 | exactly the rows that were sent leave the queue, and the queue's copies shrink by exactly theirs |
| Routing.DeleteRow | migrations/001_init.sql:119-124 | deleting by id takes out that row and no other, and exactly its copy |
| Routing.LostExactlyWhen | internal/router/group.go:144-152 | of the recipients of a publish or relay one gets nothing, neither by a transport nor in the queue, exactly when it counts as sent and none of its sessions has a transport, or no transport took its copy and its insert failed |
| Routing.OneCopyTaken | internal/session/manager.go:143-159 | with one session per agent transports take a copy once if it counts as sent and else not at all |
| Routing.DrainIsLedger | internal/router/direct.go:57-89 | with one session per agent, what a drain hands to transports is, as a multiset of copies, what it takes from the queue |
| Routing.RoutedIsLedger | internal/router/group.go:137-153 | with one session per agent, accepted and pending copies grow by exactly those sent and those queued |
| Routing.RoutedIsInLedger | internal/session/manager.go:143-159 | with several sessions accepted and pending copies grow at least by those sent and those queued, unless somebody is online without a transport |
| Routing.DrainKeepsLedger | internal/router/direct.go:57-89 | with several sessions a drain loses nothing, unless the agent is online without a transport |
| Routing.FanOut | internal/router/group.go:137-153 | every agent of the list but the sender is served once, the two counters count those sent and the others, and what transports took and what was queued is exactly what was done for each of them |
| Routing.AfterQueues | internal/router/group.go:145-149 | what a publish or relay could queue, and nothing else, has a row behind those that were there, in the order of service, with consecutive new ids and the time of the call |
| Routing.AfterHandsOver | internal/router/group.go:137-153 | every recipient in turn has its sessions handed the message, and nobody else is handed anything |
| PubSub.AddIsIndex | internal/router/pubsub.go:34-51 | adding a subscription to the nested map gives the index of the table with the row added |
| PubSub.RemoveIsIndex | internal/router/pubsub.go:53-67 | removing it, with an emptied topic dropped, gives the index of the table without the row |
| PubSub.NoEmptyTopic | internal/router/pubsub.go:62-64 | the index has no empty topic |
| PubSub.AgreeExactlyWhen | internal/router/pubsub.go:34-67 | over any sequence of requests, whatever statements fail, cache and table agree on a pair exactly when its last request and its last successful one are of the same kind, or none was successful and the row was already as the last one wants it, or there was none |
| PubSub.AgreementIsKept | internal/router/pubsub.go:34-67 | with every statement succeeding the cache stays exactly the index of the table |
| PubSub.PubSubRouter.constructor | internal/router/pubsub.go:126-144 | loading the rows in any order gives exactly the index of those that can be scanned, and an empty one when the query fails |
| PubSub.PubSubRouter.Subscribe | internal/router/pubsub.go:34-51 | the new cache, and whether cache and table still agree, exactly |
| PubSub.PubSubRouter.Unsubscribe | internal/router/pubsub.go:53-67 | the new cache, and whether cache and table still agree, exactly |
| PubSub.PubSubRouter.Publish | internal/router/pubsub.go:69-104 | every subscriber but the sender is served once and counted as delivered or queued, the queue has grown by exactly the rows of those queued for and transports have taken exactly what was sent, in the order of service; with one session per agent the ledger grows by one copy for each who was reached or queued for |
| Groups.GroupRouter.Join | internal/router/group.go:51-62 | a member is added once; one that is there keeps its row; a missing group or agent is an error |
| Groups.GroupRouter.Leave | internal/router/group.go:64-68 | exactly this membership goes, or none when the statement fails |
| Groups.GroupRouter.GetMembers | internal/router/group.go:70-88 | the group's members, each once |
| Groups.GroupRouter.Relay | internal/router/group.go:122-157 | every member but the sender is served once and counted as delivered or queued, and the rows, the deliveries and the ledger grow as for a publish; nothing happens when the members cannot be read |
| MessageRouting.Conservation | internal/router/router.go:41-60 | over every run of direct messages, broadcasts, group messages, drains, sessions that open and close, subscriptions and memberships, with one session per agent whenever something is sent, accepted and pending copies are those of the beginning and what was routed since |
| MessageRouting.StepConserves | internal/router/direct.go:57-89 | each request adds to the ledger what it has routed, and a drain adds nothing |
| MessageRouting.NothingVanishes | internal/router/router.go:41-60 | over every run, with any number of sessions, in which everybody who is online when something is sent has a session with a transport, what was accepted, pending or routed is still accepted or pending |
| MessageRouting.QueuedIsStored | internal/router/direct.go:48-54 | in every step of a run the rows that are new are those of the messages that could be queued, with the time of the request |
| MessageRouting.FirstQueuedFirstExactlyWhen | internal/router/direct.go:57-62 | of two messages for one agent that wait, queued by two requests of a run, every result of the drain's query has the one queued first in front exactly when the clock, which has whole seconds in created_at, has moved between the two |
| MessageRouting.CacheAgreesExactlyWhen | internal/router/pubsub.go:34-67 | the same of every run of requests on the router that begins with a cache that is the table's index |
| MessageRouting.Router.RouteDirectMessage | internal/router/router.go:41-46 | serves exactly its recipient |
| MessageRouting.Router.RouteBroadcast | internal/router/router.go:48-53 | serves exactly the topic's subscribers but the sender |
| MessageRouting.Router.RouteGroupMessage | internal/router/router.go:55-60 | serves exactly the group's members but the sender, or nobody when they cannot be read |
| MessageRouting.Router.ServeAll | internal/router/router.go:29-60 | any list of requests with their times is a run, and so conserves every copy |
| RateLimit.CleanupAndRejectionsAreInvisible | internal/security/ratelimit.go:53-98 | leaving out any garbage collections and any rejected calls from a run changes the answer of no other call |
| RateLimit.IdleBucketIsFull | internal/security/ratelimit.go:88-98 | a bucket idle for ten minutes has refilled to full, so dropping it is the same as keeping it |
| RateLimit.RefillsCompose | internal/security/ratelimit.go:78-86 | refilling in two steps is refilling once |
| RateLimit.LevelLater | internal/security/ratelimit.go:78-86 | what a key can spend later depends only on what it can spend now |
| RateLimit.LevelAfter | internal/security/ratelimit.go:53-76 | an accepted call costs its own key one token, and no other event changes what any key can spend |
| RateLimit.NoLimitNoCalls | internal/security/ratelimit.go:53-76 | with a limit below one call a minute nothing is ever accepted, so that nothing can be disturbed there either |
| RateLimit.RateBound | internal/security/ratelimit.go:53-76 | over any window of d seconds at most rpm + rpm*d/60 calls of a key are accepted, in every run |
| RateLimit.RejectedExactlyWhen | internal/security/ratelimit.go:53-76 | in every run, a call of a client new to the limiter is rejected exactly when some window of d seconds that ends with it has accepted more than rpm - 1 + rpm*d/60 calls of the client, whatever others do and however often the collector runs |
| RateLimit.BurstIsAccepted | internal/security/ratelimit.go:57-67 | the first rpm calls of such a client are accepted, whenever they come |
| RateLimit.WindowFrom | internal/security/ratelimit.go:53-86 | what a window accepts is bounded by the tokens there at its start and those refilled in it |
| RateLimit.ApplyKeepsWellFormed | internal/security/ratelimit.go:53-98 | no event, in any run from the empty limiter, leaves a bucket with less than nothing, more than the limit or a refill in the future |
| RateLimit.NothingWithoutLimit | internal/security/ratelimit.go:53-76 | with a limit below one nothing is accepted in any window |
| RateLimit.SpacedClientIsNeverRejected | internal/security/ratelimit.go:53-76 | a new client that waits 60/rpm seconds between its calls is never rejected, whatever others do and however often the collector runs |
| RateLimit.TokenBucket.Refill | internal/security/ratelimit.go:78-86 | the bucket's fields become the refilled bucket |
| RateLimit.RateLimiter.Allow | internal/security/ratelimit.go:53-76 | the table of buckets and the answer are those of the specification |
| RateLimit.RateLimiter.Cleanup | internal/security/ratelimit.go:88-98 | exactly the buckets idle for more than ten minutes go |
| Sse.RoundTrip | internal/protocol/a2a/server.go:700-703 | printing any list of events with comments between them and reading it back hands on exactly that list, up to the first event the callback refuses |
| Sse.RoundTripWhole | internal/protocol/a2a/client.go:205-233 | with a callback that refuses nothing, exactly the printed list comes back and reading ends with the body |
| Sse.ReadItem | internal/protocol/a2a/social_extensions.go:521-544 | one printed event or keepalive comment is read off the front of any text and leaves the reader as it was |
| Sse.ComesBackExactlyWhen | internal/protocol/a2a/client.go:205-233 | an event comes back from the text the server prints for it exactly when its type is not empty, neither field has a line feed or ends in a carriage return, the type has at most 65528 bytes and the payload at most 65529 |
| Sse.BlockComesBack | internal/protocol/a2a/client.go:210-230 | any lines the scanner accepts, none of them blank, and then a blank one: they hand on one event, of the last type they name and with the data lines as the lines of its payload, in order, and no event if they name no type or have no data; all other lines are ignored, and nothing is left for what follows |
| Sse.TextComesBack | internal/protocol/a2a/client.go:213-229 | a payload of any number of lines, written as one data line for each, comes back whole |
| Sse.TextComesBackExactlyWhen | internal/protocol/a2a/client.go:205-233 | such a payload comes back as one event exactly when its type is not empty and neither the type nor a line of it has a carriage return at its end or is too long for the scanner |
| Sse.JoinedLines | internal/protocol/a2a/client.go:215 | joining the lines of a text with line feeds gives the text |
| Sse.TruncatedPrint | internal/protocol/a2a/client.go:205-233 | a printed stream cut at any byte hands on exactly the events printed whole |
| Sse.PrefixExactlyWhen | internal/protocol/a2a/client.go:205-233 | any stream cut anywhere hands on a prefix of its events, except exactly when the cut is behind a lone carriage return, with an event collected that is not the next one of the whole stream |
| Sse.CutBehindLoneCR | internal/protocol/a2a/client.go:213-224 | such a cut hands on what the whole lines before it dispatched, and one event more exactly when they left a type and data collected |
| Sse.CutLineGivesPrefix | internal/protocol/a2a/client.go:217-224 | any other cut hands on a prefix |
| Sse.CutCanDispatchTooMuch | internal/protocol/a2a/client.go:213-224 | read from the start, any printable event whose blank line is replaced by a line that starts with a carriage return comes back when the stream is cut behind that, and does not from the whole stream |
| Sse.ReadSSEStream | internal/protocol/a2a/client.go:205-233 | the loop computes the reader function on every body and every callback |
| Subscribers.ChannelsAreSafe | internal/protocol/a2a/server.go:625-656 | over every interleaving of add, remove, notify and receive no channel is sent to after close or closed twice, no key keeps an empty list, what was received and is buffered are the taken events in order, and an event is dropped only when the buffer (16 for tasks, 32 for feeds, any size here) was full |
| Subscribers.EveryListenerIsOffered | internal/protocol/a2a/server.go:647-656 | over every interleaving a notification serves the list its key has while it runs; when it is done every channel of that list has been offered its event exactly once, and no other channel has |
| Subscribers.NotificationCanFinish | internal/protocol/a2a/server.go:647-656 | from every state of a run a notification comes to its end by its own steps alone |
| Subscribers.ListedExactlyWhen | internal/protocol/a2a/server.go:625-645 | a channel is listed behind a step exactly when the step adds it, or it was listed and the step does not remove it; a removal closes it; both wait for the notifications under way |
| Subscribers.WithoutKeepsOthers | internal/protocol/a2a/server.go:634-640 | removal takes out that channel alone and keeps the others in order |
| Subscribers.UnregisterTakesOut | internal/protocol/a2a/server.go:631-645 | who unregisters leaves its list and no other, those that stay keep their order, and no list is left empty |
| Subscribers.Chan.TrySend | internal/protocol/a2a/social_extensions.go:574-581 | the send never blocks, and drops the event exactly when the buffer is full |
| Subscribers.Registry.AddSubscriber | internal/protocol/a2a/social_extensions.go:549-553 | the new channel is appended to its key's list, no other list changes although arrays are shared with their slices, and all registered channels are open and registered once |
| Subscribers.Registry.RemoveSubscriber | internal/protocol/a2a/server.go:631-645 | the channel leaves its list, is closed, and an empty list leaves the map; a channel that is not registered is left alone; those that stay are open and registered once |
| Subscribers.Registry.Notify | internal/protocol/a2a/server.go:647-656 | every listener of the key is offered the event exactly once and no other channel changes; it supposes only what adding and removing keep |
| Subscribers.ShiftFrom | internal/protocol/a2a/social_extensions.go:560-561 | shifting in place removes the i-th element and keeps the others in order |
| Social.LogReplaysToTables | internal/protocol/a2a/social_extensions.go:138-208 | folding the event log rebuilds exactly the relations, with their metadata, and the likes, after any run whose log inserts and unlikes succeed |
| Social.OneRequestPerPair | migrations/001_init.sql:50 | in every run, whatever fails, the log has at most one collaboration request per ordered pair, because a second one fails before it is logged |
| Social.AgreesExactlyWhen | internal/protocol/a2a/social_extensions.go:147-199 | whatever fails, one event leaves log and tables in agreement exactly when a missing key, a second request or a failing statement refuses it, when it changes nothing, or when its log row is lost just when its unlike is |
| Social.RefusedIsGuard | internal/protocol/a2a/social_extensions.go:147-194 | which events are refused, by what a caller could look up |
| Social.ActIsReplay | internal/social/actions.go:28-94 | an action that goes through changes the graph as replaying its row does, and one that fails leaves it alone |
| SocialEffects.ProcessHasEffect | internal/protocol/a2a/social_extensions.go:138-208 | whatever the tables hold and whatever fails: which agents are registered and with which score, when the event goes through, and what becomes of relations, likes, messages, timeline and log, column by column |
| SocialEffects.OrdinaryEventGoesThrough | internal/protocol/a2a/social_extensions.go:142-194 | a follow, an endorsement, a request or a like that gives its names goes through when nothing fails, unless it is the second request of a pair, and the row is then there |
| SocialEffects.FactsExactlyWhen | internal/protocol/a2a/social_extensions.go:147-194 | after any run without faults somebody follows, endorses, has asked or likes exactly when an event said so and no later one took it back |
| SocialEffects.AgentsExactlyWhen | internal/social/actions.go:107-111 | after any run without faults exactly the agents that were there and those that events have named are registered |
| Social.ReputationIsMaterialized | internal/social/actions.go:70-105 | after any run of events, one after the other, whose counts and updates succeed every stored score is n/(n+10) for the n distinct endorsers, and is below 1 |
| Social.ReputationNeverFalls | internal/social/actions.go:70-105 | and no such run that goes on from there lowers any score |
| Social.ScoreRightExactlyWhen | internal/social/actions.go:70-105 | whatever fails, one endorsement leaves its target's score right exactly when its update has failed and it was a repeated one, or neither its count nor its update has failed |
| Reputation.ScoreRightExactlyWhen | internal/social/actions.go:70-105 | over every interleaving of endorsements and whatever fails, the stored score is never above that of the distinct endorsers, and is that one exactly when the count behind the last update has seen every endorser |
| Reputation.FallsExactlyWhen | internal/social/actions.go:96-105 | in every run a statement lowers a score exactly when it is an update whose count is below the number the score stands for |
| Reputation.CarefulScoresAreRight | internal/social/actions.go:70-105 | when no two endorsements of one agent overlap and counts and updates succeed, every score is right whenever no endorsement of the agent is under way, and none ever falls |
| Reputation.RaceStoresLess | internal/social/actions.go:96-105 | a run without any failure in which two overlapping endorsements end with the score of one, after the score of two was stored |
| Reputation.AloneIsSequential | internal/social/actions.go:70-105 | an endorsement with nobody beside it does what the endorsement of a social event does, whatever fails |
| Social.OneRowPerEndorser | migrations/001_init.sql:39-50 | counting endorsement rows is counting distinct endorsers, by the unique index |
| Social.ScoreGrows | internal/social/actions.go:96-105 | more endorsers never mean a lower score |
| Social.TrustCountsEndorsers | internal/protocol/a2a/social_extensions.go:312-324 | a score reaches the threshold t exactly when n*(1-t) >= 10*t |
| SocialGraph.TrustCircleCountsEndorsers | internal/protocol/a2a/social_extensions.go:312-324 | on every database that events have built, the trust circle keeps a follower exactly when it has that many endorsers |
| SocialGraph.TrustCircleShrinks | internal/protocol/a2a/social_extensions.go:312-324 | a higher threshold only takes agents out |
| SocialGraph.MutualIsSymmetric | internal/social/graph.go:33-40 | being mutual followers is symmetric |
| SocialGraph.Graph.GetFollowers | internal/social/graph.go:19-24 | exactly the followers, each once, or the query's error |
| SocialGraph.Graph.GetFollowing | internal/social/graph.go:26-31 | exactly the followed, each once, or the query's error |
| SocialGraph.Graph.GetMutualFollows | internal/social/graph.go:33-40 | the self-join is followers intersected with following, each once, or the query's error |
| SocialGraph.Graph.CountEndorsements | internal/social/actions.go:98-101 | the number of endorsement rows of the agent |
| SocialGraph.SocialExtensions.ResolveTargets | internal/protocol/a2a/social_extensions.go:297-341 | exactly the strategy's set without exclusions and the sender, each agent once, where a score that cannot be read counts as none; an error exactly for an unknown strategy or a failing query |
| SocialGraph.SocialExtensions.Trusted | internal/protocol/a2a/social_extensions.go:312-324 | exactly the followers whose score reaches the threshold, 0 for one that cannot be read |
| SocialGraph.SocialExtensions.ProcessSocialEvent | internal/protocol/a2a/social_extensions.go:138-208 | the tables change as the event asks: named agents are registered with score 0 unless it endorses them, others keep their rows, it goes through exactly when its statement succeeds and finds its keys, a row is added, replaced or deleted, the feed and the log grow; and both agents' feeds are offered the event exactly when it went through |
| SocialGraph.Actions.Follow | internal/social/actions.go:28-36 | fails exactly when an agent is unknown or the statement fails, and a repeated follow leaves the row alone |
| SocialGraph.Actions.Unfollow | internal/social/actions.go:38-46 | exactly the follow row goes |
| SocialGraph.Actions.Like | internal/social/actions.go:48-56 | a like is there once, and fails exactly when agent or message is unknown or the statement fails |
| SocialGraph.Actions.Unlike | internal/social/actions.go:58-62 | exactly that like goes |
| SocialGraph.Actions.Endorse | internal/social/actions.go:70-83 | the row is replaced and the target's score recomputed, and no other score; an error exactly when the insert fails |
| SocialGraph.Actions.UpdateReputation | internal/social/actions.go:96-105 | the target's stored score becomes that of its endorsement rows, 0 when the count fails, and stays when the update fails |
| SocialGraph.Actions.RequestCollaboration | internal/social/actions.go:85-94 | a second request between the same two agents fails |
| Tasks.ReportedStateMovesForward | internal/protocol/a2a/taskstore.go:96-129 | over every interleaving of handlers, cancels and reads the reported states of a task only move forward and never leave a terminal one; a cancel is never reported, and column and JSON differ only by a cancel |
| Tasks.EveryStateShows | internal/protocol/a2a/server.go:195-389 | a handler that no statement fails takes its task from SUBMITTED over WORKING, which a local one leaves out, to FAILED if the agent it forwards to fails and else to COMPLETED, in both places |
| Tasks.FinalStateStays | internal/protocol/a2a/taskstore.go:96-129 | whatever happens afterwards, cancels too, Get reports FAILED or COMPLETED as the handler's last successful statement wrote it |
| Tasks.CancelLeavesTerminalRows | internal/protocol/a2a/taskstore.go:88-94 | a cancel changes a row exactly when its column is not terminal, and never what Get reports |
| Tasks.CanceledIsFinalOnceHandlerIsDone | internal/protocol/a2a/taskstore.go:39-49 | CANCELED in the column stays in every later run exactly when the handler has finished |
| Tasks.TaskStore.Create | internal/protocol/a2a/taskstore.go:21-32 | inserts the row with its state in both places, and fails exactly when the id is there; a failing statement changes nothing |
| Tasks.TaskStore.Update | internal/protocol/a2a/taskstore.go:39-49 | overwrites both states without looking at them; a failing statement changes nothing |
| Tasks.TaskStore.Cancel | internal/protocol/a2a/taskstore.go:88-94 | writes only the column, and only of a row that is not terminal; a failing statement changes nothing |
| Tasks.TaskStore.Get | internal/protocol/a2a/taskstore.go:34-37 | the JSON's state, or the column's when there is none |
| Tasks.AdvanceKeepsTask | internal/protocol/a2a/server.go:195-389 | each statement of the three handlers keeps the order of states |
| Budget.AcceptedExactlyWhen | internal/security/budget.go:60-87 | a request is accepted exactly when it fits or the 64-bit sum wraps around |
| Budget.AlertExactlyWhen | internal/security/budget.go:29-34 | the alert is raised exactly when it was before, or the charge goes through and the tokens used have reached the threshold's share of the maximum, of whatever sign; with a maximum of 0 exactly when the threshold is not positive |
| Budget.ChargeIsSum | internal/security/budget.go:69-74 | below the wrap-around a charge that fits adds its tokens, and one that does not changes nothing |
| Budget.BudgetsHold | internal/security/budget.go:44-99 | in every interleaving of the two-phase spends and resets a session's accepted tokens stay within MaxTokens*(1 + resets), and each budget object has alerted exactly when it reached the threshold |
| Budget.LoneSpendIsCounted | internal/security/budget.go:60-87 | from every state of a run a spend that nothing comes between is accepted exactly when the session's budget has room for it, and is counted there |
| Budget.ResetGivesAll | internal/security/budget.go:95-99 | behind a reset the session can spend its whole budget again |
| Budget.AlertsOnce | internal/security/budget.go:76-84 | in every run, whatever is requested, a budget object alerts at most once |
| Budget.WrapBreaksBound | internal/security/budget.go:69-74 | a run in which a sum wraps around and the session's bound is broken |
| Budget.BudgetManager.GetOrCreate | internal/security/budget.go:44-58 | the session's one object, created with nothing used if there was none |
| Budget.BudgetManager.SpendOn | internal/security/budget.go:66-86 | the object's charge and alert, and no other object |
| Budget.BudgetManager.Consume | internal/security/budget.go:60-87 | accepted without a change when budgets are off, and else as charged to the session's object |
| Budget.BudgetManager.Reset | internal/security/budget.go:95-99 | the session's object leaves the table |
| Approval.OneVerdictEach | internal/security/approval.go:71-127 | in every run pending and waiters have the same keys, the send never blocks or panics, and each request gets at most one verdict, which is the one stored, the one its waiter receives before the close, and after which every resolve reports not found |
| Approval.FirstVerdictReachesWaiter | internal/security/approval.go:71-127 | a submitted request waits whatever else happens, its first verdict is found, and that one is stored, received by its waiter and never changed |
| Approval.ResolvedStays | internal/security/approval.go:104-127 | a resolved request stays as it was resolved in every later run |
| Approval.ApprovalQueue.Submit | internal/security/approval.go:71-94 | a pending request under a new id with an empty open channel |
| Approval.ApprovalQueue.Resolve | internal/security/approval.go:104-127 | not found exactly when the request does not wait; else the request and its waiter carry the verdict, the channel is closed and both maps forget it |
| Counters.NoIncrementIsLost | internal/observability/metrics.go:46-61 | for any number of interleaved calls, also in the gap between the locks, a name has at most one counter and its value is the number of its calls that have added |
| Counters.EveryCallCanFinish | internal/observability/metrics.go:46-61 | from every state of a run a call comes to its end by its own steps alone, and has then raised its name's value by one and no other |
| Counters.Metrics.IncCounter | internal/observability/metrics.go:46-61 | the name's value grows by one from zero or what it was, and no other value changes |
| Timeline.PagingIsComplete | internal/social/timeline.go:30-64 | whatever is inserted between the calls, the pages of a walk are exactly the agent's events up to the first page's newest, in strictly descending order and each once, and the walk ends |
| Timeline.BackwardsIsExact | internal/social/timeline.go:35-44 | the rows a cursor lets through are exactly the agent's with smaller ids, newest first |
| Timeline.PageIsNewest | internal/social/timeline.go:30-64 | a page has at most the limit of rows, or 50, all visible rows of the agent, newest first, and a visible row is missing only from a full page and is older than all of it |
| Timeline.CursorSkips | internal/social/timeline.go:38-44 | passing the id of the n-th row as the cursor skips exactly n rows |
| Timeline.NewRowsAreHidden | migrations/001_init.sql:98-105 | rows inserted later never show behind a cursor |
| Timeline.TimelineStore.AddEvent | internal/social/timeline.go:19-28 | a row with the next id, refused exactly when a foreign key is missing or the statement fails |
| Timeline.TimelineStore.GetTimeline | internal/social/timeline.go:30-64 | the first page of the visible rows, with the default limit for a limit of 0 or less, or the query's error |
| Timeline.TimelineStore.PopulateTimelineForFollowers | internal/social/timeline.go:67-79 | one row for each follower of the source that statement and foreign keys let through, in the order of the query, with consecutive ids; nothing and an error when the followers cannot be read |

## Left out

- DeliveryProtocol.NoLoss: supposes that sessions found have a transport among them and that fan-out inserts succeed; LostExactlyWhen supposes nothing.
- MessageRouting.Conservation: one session per agent, with a transport, whenever something is sent; NothingVanishes is the lower bound for several, which is all there is, as each session takes a copy and a failing one has the whole message queued again.
- Routing.DirectRouter.DeliverPending: run alone its scans and DELETE statements succeed; failing ones and concurrent drains are steps of DeliveryProtocol.
- Social.LogReplaysToTables: supposes, as the code needs, that inserting the log row and deleting a like succeed; AgreesExactlyWhen says what one event does when they fail. It is not an if-and-only-if over runs, because a later event can repair the difference.
- Social.ReputationIsMaterialized: supposes that counts and updates succeed and that events run one after another; Reputation.ScoreRightExactlyWhen supposes neither.
- RateLimit.SpacedClientIsNeverRejected: for a client whose calls are spaced from its first one on, as a client that has just spent everything must wait first.
- RateLimit.RejectedExactlyWhen: for a client that has no bucket at the beginning, as a bucket that is there may hold anything.
- SocialEffects.FactsExactlyWhen: for runs without faults; ProcessHasEffect says what each event does with them.
- MessageRouting.FirstQueuedFirstExactlyWhen: for messages queued by different requests, as one request queues at most one for an agent.
- Budget.BudgetsHold: for requests within MAX64 - MaxTokens, which is when no sum wraps around; AcceptedExactlyWhen says what happens beyond.
- Subscribers.ChannelsAreSafe: channels are fresh when they are added, as the handlers make them; the final event of a task may reach nobody, because a subscriber can come between the read and the subscription.
- Sessions.TransportsAreClosedExactlyOnce: every connection brings a transport of its own; the methods of the manager do not suppose it.
- The copy of each message that persistMessage puts into the messages table: its errors are only logged. The timeline row of a social event fails only for a missing key here.
- Exactly-once delivery to several sessions and a global order of messages: the code promises neither.
- Time is a number that the caller passes, and floats are exact reals; rounding is not modelled.
- The event payload is text: marshalling it is not part of this model. One character stands for one byte.
- SQL text, drivers and migrations: tables are sets, maps and sequences with the keys of the schema. Relation row ids and created_at columns are dropped where nothing reads them, and row order is arbitrary unless the query sorts.
- The stale cells that a removal leaves behind the end of a Go slice.
- Creating, listing and deleting groups, listing sessions, topics and pending approvals, and push notification configs would only add easy members.
- Paging of tasks by context, per-skill counts of profiles and feed history: the code computes nothing further there.
- HTTP handlers, JSON, logging, TLS, configuration, the dashboard, the demos and the language model client.
- The MCP wrappers, content filters, authentication and authorization, the plugin registry, conversation contexts, the audit log and discovery.
