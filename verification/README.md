# Presence engine: a verified model

A Dafny model of the presence service: the Redis store that gateways, API, sweeper and debouncer
change together, the SDK client that rebuilds presence from versioned events, and webhook delivery.
`dafny verify dfyconfig.toml` checks the whole project.

## What is modelled

One scope of the store is a value (`Store.Store`): session keys with deadlines, per-user session
sets, version counters, per-session states, the last published aggregate, device counts, the online
set, the scopes index and the saved scan cursor. The classes `Redis`, `Service`, `Sweeper`,
`Debouncer`, `Client`, `Connection`, `Stream`, `Producer` and `Worker` perform the source's
operations step by step on such state; every method is proved against a function that gives the
state it leaves, and the theorems are about these functions.

Two granularities are used.

- **Operation level (OP).** Each exported operation and each advance of the clock is one step, in
  any order: modules `System`, `Runs`, `Announcements`, `Spelling`, `LateDisconnects`, `Leftovers`,
  `Heartbeats`, `Sdk`, and with disconnect jobs `Engine`, `JobRuns`, `FlapDetection`.
- **Command level (CMD).** Each Lua script and each single Redis command is one step of a thread
  with a program counter; every interleaving of any number of threads is a run: modules `Threads`,
  `Interleaving`, `Races`, `EventCounts`. Module `Atomicity` connects the two: an undisturbed thread
  performs exactly the operation-level step.

| file | content |
|---|---|
| Base, Store, Events | identifiers, one scope of the store, the Lua scripts, events |
| Service, Sweeper, Debouncer, Gateway | the operations, as classes over the store |
| System, Runs | the OP machine, its invariant, and what every run keeps |
| Announcements | exactly what each step publishes, and that every version is announced |
| Spelling | which spellings of a presence value are accepted, and what they do |
| LateDisconnects, Leftovers | what expired sessions leave behind |
| Sdk | the version filter and its convergence to the server |
| SweepConvergence | full scans with pauses, and what they leave |
| Heartbeats | exactly how long heartbeats keep a session alive |
| Engine, JobRuns, Flapping | the OP machine with disconnect jobs; flap detection |
| Threads, Interleaving, Atomicity | the CMD machine |
| Races, EventCounts | what its interleavings keep, lose and report |
| Keys | the string keyspace |
| Webhooks, WebhookRuns | webhook delivery and retries |
| Reconnect | the SDK's reconnection delay |

## Assumptions

- Session ids, job ids and event ids are fresh UUIDs (pkg/ws/hub.go:257 issues a new session id for
  every connection). A gateway schedules a disconnect only for its own session.
- A Redis key is live exactly while `now` is before its deadline. Redis commands do not fail; Lua
  scripts and single commands are atomic. A pipeline is not atomic at command level.
- SSCAN returns every element present during the whole iteration (`SweepConvergence.ScanGuarantee`).
- Time is in milliseconds and is the same for all processes; scores are exact. Durations below a
  millisecond are not distinguished. Webhook delays are in nanoseconds.
- The session TTL is at least one second: a shorter one reaches Redis as 0, which SETEX refuses, so that
  no connect would succeed. The theorems hold of every TTL, but say nothing of the service below that.
- The metadata TTL of a job is the one EXPIRE receives, in whole seconds.
- At operation level an operation and the events it publishes are one step. At command level the users
  of a scan are swept by threads of their own, and a pause may save any cursor.
- A consumer group hands a stream entry to one worker; any number of workers read and process entries.
- Random ids, the order in which SMEMBERS lists a set, SSCAN replies, the outcome of a webhook
  delivery and the random jitter are parameters.

## What the proofs turned up

- **Heartbeats.** A heartbeat refused by the rate limit does not extend the deadline, and the TTL
  reaches Redis in whole seconds. Heartbeats at gaps of at most H keep every session alive if and only if
  max(R, 1 ms) + H is at most the TTL in whole seconds, for every rate limit R. With R at most H a
  whole-second TTL of at least 2H is enough; the check in `Validate` is not: 3.5 s with H = R = 1.75 s
  passes it and fails.
- **Cancelling on connect.** The comment at pkg/presence/debouncer.go:126-127 says to cancel on reconnect to prevent
  flicker. Every connection has a new session id, so the cancellation in `connect` never finds a
  job. Flicker is prevented by the job itself: it cannot take offline a user who has another session.
- **Online set under interleaving.** A user has sessions without being online if and only if a removal
  from the online set hit them while they had sessions and they have had some ever since. Both the
  sweeper and `DisconnectUser` leave a window between reading that there are no sessions and the
  removal. A connect of that user in it loses the user: they stay off the online set, and so out of
  every scan, until the last session is gone. Other users' races do not matter.
- **Scopes index under interleaving.** The end of a scan has the same window between counting the online
  users and dropping the scope. As long as no connect of any user fell into it, a scope with online users
  is indexed; when the first user connects in it, the scope is lost to sweeper and debouncer.
- **Events under interleaving.** A sweep, and the repair in `DisconnectUser`, count the sessions with one
  command and take the version of their event with a later one. The event carries the number of sessions
  present at its version if and only if as many sessions joined as left in between. A connect in between is
  enough to make it wrong: the connect's event has version 1 and one tab, the sweep's has version 2 and
  none, and the SDK's filter keeps the latter while the session is there.
- **Colons.** Whatever scope, user and session ids are in use, no two users share a key if and only if no
  ids clash. Ids clash in two ways: scope `b` is scope `a`, a colon and a text, while one user id is that text,
  a colon and another user id; or one session id is a text, the separator and another session id, while one
  user's scope and id are another's followed by the separator and that text. User and session ids without a
  colon never clash, whatever the scopes.
  If any string may be a user id and session ids are UUIDs, users are apart if and only if no scope id
  continues another behind a colon: scope `a` with user `b:c` and scope `a:b` with user `c` collide.
- **Short-lived jobs.** A queued disconnect job takes effect when it is run if and only if that is before its
  scheduling time plus the metadata TTL; otherwise it is dropped. `Validate` does not compare that TTL with the
  debounce delay. If it is at most the delay, no job ever disconnects anybody. A dropped job stays in the
  cancellation index, which has no expiry, until the jobs of its session are cancelled.
- **Invisible mark.** A lookup shows a user as online if and only if they have sessions and no connect since
  a disconnect last took them offline was invisible. The sweeper does not clear the mark: when an invisible
  session expires and is swept and the user connects again visibly, subscribers are told that the user is
  online while lookups say offline.
- **Device counts.** A device's count is the number of the user's sessions on it plus one for every session on
  it that expired before its disconnect, since a disconnect last took the user offline.
- **What is withheld.** Every version a user is left at has a published event that shows the user as they are
  then, unless an invisible connect made the version or a job that took a flapping user offline. A client
  that receives all events of a user, in any order, therefore shows what the server has, unless the user's
  last change was one of these two.
- **Late disconnects.** A user without sessions has a published presence value if and only if a
  disconnect of that user came while there were no sessions, and since then no connect and no sweep of
  the user. It happens when a session expires, is pruned, and its disconnect job runs afterwards.
- **Reconnect requests.** The server's `reconnect_required` message has a type, so the SDK takes it for
  an event of version 0 and drops it; the branch that handles it is never reached.
- **Reconnection delay.** Jitter is applied after the cap, so the documented maximum holds exactly
  when the jittered base fits; with the default settings every delay from the sixth on can exceed it.
- **Comments that differ from the code**, where the model follows the code: the version is said to count
  online and offline transitions (pkg/presence/keys.go:54-56) but counts every change; session keys
  are said to be tagged by scope and user (pkg/presence/keys.go:30-32) but are tagged by scope.

## Model

| member | source | states |
|---|---|---|
| Store.Redis.Connect | pkg/presence/lua/connect.lua:31-59 | the script, call by call, leaves exactly the store of `Store.Connect` and returns its result |
| Store.Redis.Heartbeat | pkg/presence/lua/heartbeat.lua:10-20 | extends a live session and only a live one; says which it was |
| Store.Redis.Disconnect | pkg/presence/lua/disconnect.lua:23-49 | the script, call by call, leaves exactly the store of `Store.Disconnect` and returns its result |
| Presence.AggregateSessionStates | pkg/presence/presence_state.go:42-59 | the loop, in any order, answers dnd iff some session is dnd, active iff none is dnd or idle |
| Presence.AggregateHasPriority | pkg/presence/presence_state.go:42-59 | dnd iff some session is dnd, idle iff some is idle and none dnd, active iff none is either |
| Presence.AddingActiveKeepsAggregate | pkg/presence/presence_state.go:42-59 | a new active session never changes the aggregate, which is why a connect need not republish it |
| Presence.Service.Connect | pkg/presence/service.go:126-206 | script, invisible mark and device count leave `Connected`; an invisible user reports no online transition |
| Presence.Service.InitSessionPresenceOnConnect | pkg/presence/presence_state.go:75-87 | the session's state becomes active; the first session also resets the published value |
| Presence.Service.Heartbeat | pkg/presence/service.go:210-258 | restarts a live session's TTL in whole seconds, reports an unknown session otherwise |
| Presence.Service.SetSessionPresenceState | pkg/presence/presence_state.go:91-166 | rejects unknown values and unknown sessions, bumps the version only when the aggregate changed |
| Presence.Service.ApplyDisconnectPresenceState | pkg/presence/presence_state.go:170-206 | drops all presence when offline, else one session's state, and says whether the aggregate changed |
| Presence.Service.Disconnect | pkg/presence/service.go:262-318 | device read, script and clean-ups leave `Disconnected` and its report |
| Presence.Service.DisconnectUser | pkg/presence/service.go:322-367 | the loop over the listed sessions, or the repair of a stale online entry; reports the last result |
| Sweep.Sweeper.PruneSessions | pkg/presence/sweeper.go:198-223 | removes exactly the expired sessions, with their states, and counts them |
| Sweep.Sweeper.SweepUser | pkg/presence/sweeper.go:179-297 | prune, then offline transition or tab event, leaves `Swept` and the events |
| Sweep.Sweeper.SweepScope | pkg/presence/sweeper.go:105-177 | the cursor loop with its budget: pauses save the cursor, a finished scan resets it and drops an empty scope |
| Debounce.Debouncer.ScheduleDisconnect | pkg/presence/debouncer.go:83-125 | queue, metadata and index get the job, due after the delay |
| Debounce.Debouncer.CancelDisconnect | pkg/presence/debouncer.go:128-170 | the loop removes exactly the indexed jobs of one user and session; returns how many were indexed |
| Debounce.Debouncer.RecordTransition | pkg/presence/debouncer.go:248-293 | add, prune, count, expire; true iff the pruned set reaches the threshold |
| Debounce.Debouncer.ExecuteJob | pkg/presence/debouncer.go:313-437 | orphaned jobs are dropped; live ones disconnect, publish and clean up |
| Debounce.Debouncer.PublishOutcome | pkg/presence/debouncer.go:341-416 | offline unless flapping, else tab count and, if the aggregate changed, presence |
| Debounce.Debouncer.ProcessScope | pkg/presence/debouncer.go:220-245 | executes the batch of lowest run times, one after the other |
| Gateway.Client.Connect | pkg/ws/client.go:223-310 | cancels, connects, initialises, publishes the right event and starts the heartbeat clock |
| Gateway.Client.HandleHeartbeat | pkg/ws/client.go:312-372 | three outcomes: refused by the rate limit, accepted, or session expired and connection closed |
| Gateway.Client.HandlePresenceState | pkg/ws/client.go:393-431 | publishes exactly when the aggregate changed |
| Gateway.HandleDisconnectUser | cmd/api/main.go:292-334 | disconnects the user and publishes offline or the tab count |
| Sdk.Connection.ReadPump | pkg/sdk/client.go:509-598 | the loop delivers exactly the typed objects newer than the last seen version, and no message ever triggers a reconnection |
| System.ConnectStep | pkg/ws/client.go:244-297 | OP: a connect keeps the invariant, adds exactly the session, bumps the version once, publishes one event unless invisible, and the event shows the user as the connect leaves them |
| System.DisconnectStep | pkg/presence/debouncer.go:333-416 | OP: so does a debounced disconnect, which removes exactly the session, bumps the version iff it was listed and publishes at most two events |
| System.DisconnectUserStep | cmd/api/main.go:292-334 | OP: so does the API's disconnect |
| System.SweepStep | pkg/presence/sweeper.go:197-294 | OP: so does a sweep of a user |
| System.SetStateStep | pkg/presence/presence_state.go:91-166 | OP: so does a presence change |
| System.DisconnectAllShape | pkg/presence/service.go:353-366 | a full DisconnectUser leaves nothing but the version, n higher, and reports offline |
| System.OnlyTheLastReportsOffline | pkg/presence/service.go:353-360 | of the n disconnects of the loop only the last reports a transition |
| Runs.StepKeepsOk | pkg/presence/service.go:126-367 | OP: every step keeps the invariant of store and event log |
| Runs.ReachableUserAgrees | pkg/presence/presence_state.go:91-206 | OP: in every reachable state online iff sessions, states exactly for members, published value equal to the aggregate, live sessions listed |
| Runs.PublishedValueHasPriority | pkg/presence/presence_state.go:91-206 | OP: in every reachable state the published value of a user with sessions is dnd iff one of them is dnd, idle iff one is idle and none dnd, active iff all are active |
| Spelling.NormalizeReadsNames | pkg/presence/presence_state.go:29-40 | a text is taken for a value iff it is one of the value's names in any case with any space around it |
| Spelling.ChoiceIsReported | pkg/presence/presence_state.go:91-166 | a presence change is invalid iff it spells no value, unknown iff the session is not listed, else answered with version, tabs and aggregate as left, and published iff the published value changed |
| Spelling.ChoiceTakesEffect | pkg/ws/client.go:393-431 | OP: a presence change sets exactly that session's state to the value it spells, or does nothing |
| Announcements.StepsPublishExactly | pkg/presence/debouncer.go:341-416 | OP: every step of a run publishes exactly the events, of the right types and in order, that the user's sessions and published value before and after it call for |
| Announcements.VersionsAreAnnounced | pkg/ws/client.go:257-297 | OP: every version of a user was made by a step that published an event of that version showing the user, or was an invisible connect or a flapping user's going offline |
| Announcements.ConnectIsReported | pkg/presence/service.go:126-206 | a connect reports online or invisible iff it is the user's first session, and version and count as it leaves them |
| Announcements.DisconnectUserSettles | pkg/presence/service.go:322-367 | from any store, whatever races left: afterwards the user has no session and is not online, one offline event of the new version iff there was either, and a second call does nothing |
| LateDisconnects.StepStale | pkg/presence/presence_state.go:170-206 | OP: a step leaves a user without sessions but with a published value iff it is a disconnect while there are no sessions, or they had one before and are neither connected nor swept |
| LateDisconnects.StaleIffLateDisconnect | pkg/presence/presence_state.go:170-206 | OP: in any state of a run this holds iff a late disconnect came since the last connect or sweep of the user |
| LateDisconnects.LateDisconnectLeavesActive | pkg/presence/presence_state.go:179-203 | OP: a late disconnect publishes and counts nothing but leaves "active" published |
| LateDisconnects.LateDisconnectHappens | pkg/presence/sweeper.go:263 | OP: such a run exists: expiry, sweep, and only then the disconnect job |
| Runs.VersionCountsEveryChange | pkg/presence/lua/connect.lua:48-50 | OP: versions never decrease, and two states of a run with equal version agree on tab count, online status and aggregate |
| Runs.KindsMatchTabs | pkg/ws/client.go:257-297 | OP: in every run an event is of type offline iff it carries no tabs, of type online only with one tab, and all but offline carry a state |
| Runs.SessionsAreConserved | pkg/presence/sweeper.go:213-215 | OP: session count = additions - disconnect removals - prunes, over any run |
| Runs.DisconnectUserLeavesNothing | pkg/presence/service.go:322-367 | OP: with n > 0 sessions: version up by exactly n, no session, state, published value or device left, one offline event, nobody else touched |
| Leftovers.LooksOnlineIffVisibleSince | pkg/presence/service.go:381-412 | OP: a lookup shows a user as online iff they have sessions and no invisible connect came since a disconnect last took them offline |
| Leftovers.VisibleUserLooksOffline | pkg/presence/service.go:301-304 | OP: a run in which subscribers are told that a user is online while lookups say offline |
| Leftovers.DeviceCountsAreOffByTheMissed | pkg/presence/service.go:267-308 | OP: a device's count is the number of member sessions on it plus the sessions on it that expired before their disconnect since a disconnect last took the user offline |
| Leftovers.DeviceCountsCoverSessions | pkg/presence/service.go:267-308 | OP: so the count never falls below the member sessions, and is equal while no session expires before its disconnect |
| Leftovers.UnnamedDeviceIsNotCounted | pkg/presence/service.go:200-206 | OP: sessions that name no device appear in no count |
| Sdk.ReconnectRequestIsLost | pkg/sdk/client.go:554-575 | a server's request to reconnect changes nothing, in any state of the filter |
| Sdk.DeliveredVersionsIncrease | pkg/sdk/client.go:577-590 | of the events about one user, each delivered one is newer than all delivered before |
| Sdk.FilterKeepsHighest | pkg/sdk/client.go:577-590 | the filter ends at the highest version delivered and last shows an event of that version |
| Sdk.SubscriberFollowsHighestVersion | pkg/sdk/client.go:577-590 | for any run and any reordered, duplicated, lossy delivery, what is shown is what any event of the highest version says |
| Sdk.SubscriberConverges | pkg/sdk/client.go:577-590 | if that version is the server's in some state of the run, the client's view is the server's view there |
| Sdk.ArrivedVersionIsSeen | pkg/sdk/client.go:509-598 | a published event that arrives on any socket, whatever arrives with it, raises the last seen version to at least its own |
| Sdk.ConnectionConverges | pkg/sdk/client.go:509-598 | a client that reconnects any number of times and reads garbage and reconnect requests too shows the server's view of a state as soon as an event of its version, and none newer, has arrived |
| Sdk.CompleteDeliveryConverges | pkg/sdk/client.go:509-598 | end to end: a client that receives every event about a user, in any order and however often, shows the server's present view, unless the last change was withheld |
| Sdk.OrderDoesNotMatter | pkg/sdk/client.go:577-590 | two deliveries of the same events show the same |
| SweepConvergence.TicksResumeTheIteration | pkg/presence/sweeper.go:111-176 | whatever the pauses, the SSCAN calls of one scan form one complete iteration |
| SweepConvergence.SweptKeeps | pkg/presence/sweeper.go:197-265 | sweeping a user never drops a live session and settles that user; every other user's record and online status stay as they were |
| SweepConvergence.SweepSettles | pkg/presence/sweeper.go:105-177 | whatever cursor was saved: once that scan is finished, a full scan leaves a user with exactly the live sessions and online iff there is one |
| SweepConvergence.SweepConverges | pkg/presence/sweeper.go:105-177 | after such a scan this holds of every user, and an empty scope is off the index |
| Heartbeats.BeatingSessionStaysAlive | pkg/ws/client.go:312-365 | with margin, a beating session is live, listed and its user online in every state of a run of any length |
| Heartbeats.HeartbeatMarginIsExact | pkg/presence/lua/heartbeat.lua:10-20 | for any rate limit, heartbeats keep every session alive iff rate limit plus interval fit in the whole seconds of the TTL |
| Heartbeats.WholeSecondTtlKeepsAlive | pkg/config/config.go:216-221 | a validated whole-second TTL is enough |
| Heartbeats.ValidateAloneIsNotEnough | pkg/presence/service.go:217 | a validated TTL with a fraction of a second is not |
| Engine.StepKeepsEngineOk | pkg/presence/debouncer.go:83-170 | OP: scheduling, cancelling, fetching, executing and every presence step keep queue, metadata and index in agreement |
| Engine.ExecuteIsExecuteJob | pkg/presence/debouncer.go:313-423 | the machine's job step is what executeJob does to store, log and job keys |
| Engine.ProcessScopeIsAHistory | pkg/presence/debouncer.go:220-245 | OP: one call of processScope is a history of the machine: the fetch, then each fetched job in turn |
| Engine.HistoryIsARun | pkg/presence/debouncer.go:333 | every history with jobs is a run of the presence machine, so all of Runs applies to it |
| JobRuns.JobsAreAccountedFor | pkg/presence/debouncer.go:313-423 | OP: every scheduled job is in exactly one of queued, executed, cancelled, dropped |
| JobRuns.JobExecutesOnceAndOnTime | pkg/presence/debouncer.go:220-232 | OP: a job executes at most once, and not before its delay has passed |
| JobRuns.CancellationIsComplete | pkg/presence/debouncer.go:128-157 | OP: after a cancellation no job of that session has an effect until a new one is scheduled |
| JobRuns.CancellationSparesOthers | pkg/presence/debouncer.go:128-157 | jobs of every other user and session stay exactly as they were |
| JobRuns.ConnectCancelsNothing | pkg/ws/client.go:227-231 | OP: the cancellation of a connect leaves all jobs as they were, because the session id is new |
| JobRuns.ReconnectedUserStaysOnline | pkg/presence/debouncer.go:333-416 | a job never takes offline a user with another session |
| JobRuns.EffectiveJobIsPolled | pkg/presence/debouncer.go:174-191 | OP: a pending job whose session is still listed is in an indexed scope, so it will be polled |
| JobRuns.FetchTakesOldest | pkg/presence/debouncer.go:224-229 | a fetch takes all jobs that were due earlier, or a full batch of them |
| JobRuns.JobTakesEffectIffInTime | pkg/presence/debouncer.go:316-327 | OP: in any history a queued job that is run takes effect iff its metadata TTL has not passed since it was scheduled, and is dropped otherwise |
| JobRuns.JobDisconnectsItsSession | pkg/presence/debouncer.go:329-416 | OP: a job that takes effect disconnects exactly the session it was scheduled for and publishes what that calls for |
| JobRuns.IndexedIffQueuedOrDropped | pkg/presence/debouncer.go:322-327 | OP: the cancellation index holds the queued jobs and exactly those dropped ones that were not cancelled since |
| JobRuns.ShortLivedJobsNeverRun | pkg/presence/debouncer.go:322-327 | OP: with a metadata TTL of at most the delay no job of any history ever takes effect |
| JobRuns.DueJobsDrain | pkg/presence/debouncer.go:220-245 | OP: n due jobs are gone after ceil(n / batch size) calls, whatever happens in between |
| FlapDetection.FlapTtlCoversWindow | pkg/presence/debouncer.go:270 | the expiry is twice the window in whole seconds, at least one second, and always outlives the window |
| FlapDetection.NothingRecordedWhenOff | pkg/presence/debouncer.go:249-253 | OP: with detection off no history records a transition |
| FlapDetection.KeyHoldsTheWindow | pkg/presence/debouncer.go:258-270 | the pruned, expiring set holds exactly the transitions of the current window |
| FlapDetection.RefinesFullHistory | pkg/presence/debouncer.go:248-280 | the count equals the count over all transitions ever recorded that lie in the window |
| FlapDetection.VerdictCountsAllTransitions | pkg/presence/debouncer.go:248-339 | OP: in every history a job finds its user flapping iff detection is on and enough of the user's job disconnects fall in the window |
| FlapDetection.OfflineWithheldIffFlapping | pkg/presence/debouncer.go:338-366 | OP: the job that takes a user offline publishes nothing iff detection is on and at least threshold job disconnects of the user lie in the window |
| Threads.Perform | pkg/presence/sweeper.go:186-274 | the Redis connection performs each command of the CMD machine |
| Interleaving.ActKeepsOk | pkg/presence/sweeper.go:198-215 | CMD: every act keeps live sessions listed and threads right about what they prune; nothing expired comes back |
| Races.ExpiredStaysExpired | pkg/presence/lua/heartbeat.lua:11-19 | CMD: an expired or deleted session is never live again |
| Races.PruningIsSafe | pkg/presence/sweeper.go:198-215 | CMD: in every interleaving a live session is in its owner's set and no sweep is about to remove one |
| Races.ScanRepairsAnyInterleaving | pkg/presence/sweeper.go:105-177 | from any state of any interleaving in which users with sessions are online, say after a scan that paused or a sweep that died halfway, a full scan after the one in progress leaves exactly the live sessions and the online set to match |
| Races.OnlineIffRemovalsFindEmpty | pkg/presence/sweeper.go:226-241 | CMD: up to any state a user is online whenever they have sessions iff each removal of that user found no sessions |
| Races.OnlineWithoutConnectInWindow | pkg/presence/service.go:328-341 | CMD: a user with sessions is online unless a connect of that user fell between such a reading and the removal before |
| Races.ConnectInWindowLosesUser | pkg/presence/sweeper.go:226-241 | CMD: from any open window there is a continuation that leaves a user with a session offline |
| Races.OnlineCanMissAUser | pkg/presence/service.go:333-341 | CMD: such a run exists from the empty store |
| Races.LostUserStaysLost | pkg/presence/lua/connect.lua:52-57 | CMD: that user stays off the online set as long as one session is left |
| Races.LostIffRemovedWithSessions | pkg/presence/sweeper.go:226-241 | CMD: in any state a user has sessions without being online iff a removal hit them with sessions and they have had some ever since |
| Races.IndexedIffDropsFindEmpty | pkg/presence/sweeper.go:160-166 | CMD: up to any state the scope is indexed whenever somebody is online iff each drop of the scope found nobody online |
| Races.IndexedWithoutConnectBeforeDrop | pkg/presence/sweeper.go:160-166 | CMD: a scope with online users is indexed unless a connect fell between such a count and the drop before |
| Races.IndexCanMissAScope | pkg/presence/sweeper.go:160-166 | CMD: a run from the empty store ends with a user online in a scope off the index |
| Races.VersionsNeverDecrease | pkg/presence/lua/disconnect.lua:39-41 | CMD: in every interleaving no user's version ever decreases |
| Races.BumpsObtainDistinctVersions | pkg/presence/sweeper.go:242 | CMD: no two bumps by any writers obtain the same version, and none is skipped |
| EventCounts.SessionsBalance | pkg/presence/lua/connect.lua:44-59 | CMD: between any two states of an interleaving a user's session count changes by the sessions connects added minus those scripts and sweeps removed |
| EventCounts.EventIsRightIffBalanced | pkg/presence/sweeper.go:226-294 | CMD: the event of a sweep or repair carries the session count at its version iff as many sessions joined as left since the count |
| EventCounts.UndisturbedEventIsRight | pkg/presence/service.go:324-346 | CMD: so it is right when nothing touches the user's sessions in between |
| EventCounts.WrongEventHappens | pkg/presence/sweeper.go:226-259 | CMD: a run from the empty store in which the event of the higher version has no tabs while a session is listed |
| Atomicity.ConnectAlone | pkg/presence/service.go:126-206 | an undisturbed connect thread is the operation-level connect |
| Atomicity.DisconnectAlone | pkg/presence/service.go:262-318 | likewise a disconnect |
| Atomicity.DisconnectUserAlone | pkg/presence/service.go:322-367 | likewise DisconnectUser, in the listed order |
| Atomicity.StateSetAlone | pkg/presence/presence_state.go:91-166 | likewise a presence change |
| Atomicity.SweepAlone | pkg/presence/sweeper.go:179-297 | likewise a sweep, in whatever order sessions are listed |
| Atomicity.ScanEndAlone | pkg/presence/sweeper.go:155-166 | likewise the end of a scan |
| Keys.KeysAreDistinct | pkg/presence/keys.go:23-152 | in either hash-tag mode keys for ids without colon are equal strings iff they are the same key |
| Keys.FlatRefinesTyped | pkg/presence/keys.go:23-152 | after any writes, one flat string map holds under each key what the typed map holds |
| Keys.UsersApartIffClashFree | pkg/presence/keys.go:38-152 | for any sets of scope, user and session ids in use and all eight families of user keys, no two users share a key iff no ids among them clash |
| Keys.ColonFreeUsersAreApart | pkg/presence/keys.go:38-152 | user and session ids without a colon are apart in any scopes |
| Keys.AllUsersApartIffPrefixFree | pkg/presence/keys.go:38-152 | over all conceivable user ids, with colon-free session ids: users are apart iff no scope id continues another behind a colon |
| Keys.CollidingUsers | pkg/presence/keys.go:41-44 | two users who share their keys |
| Webhooks.Producer.Publish | pkg/webhooks/producer.go:46-93 | appends a first attempt, or nothing when webhooks are disabled |
| Webhooks.Producer.PublishRetry | pkg/webhooks/producer.go:96-113 | appends the event with its attempt counted |
| Webhooks.Worker.ProcessMessage | pkg/webhooks/worker.go:94-147 | malformed, delivered, to be retried after the backoff, or dead; acknowledged in every case |
| Webhooks.Worker.ReadAndProcess | pkg/webhooks/worker.go:66-90 | one turn of the loop reads a batch and processes it in order, each delivery ending at its own time |
| WebhookRuns.BackoffDoubles | pkg/webhooks/worker.go:200-208 | the first wait is the configured delay, each later one twice the one before, all capped at five minutes |
| WebhookRuns.BackoffGrows | pkg/webhooks/worker.go:200-208 | no later wait is shorter than an earlier one |
| WebhookRuns.EveryEventIsInOnePlace | pkg/webhooks/worker.go:94-147 | every published event is, once, in the stream, waiting, delivered or dead |
| WebhookRuns.DeliveredIffAccepted | pkg/webhooks/worker.go:94-147 | in every run an event counts as delivered iff the endpoint accepted some try of it |
| WebhookRuns.UnsettledWasNeverAccepted | pkg/webhooks/worker.go:110-132 | what is in the stream, waiting or dead was never accepted |
| WebhookRuns.NoTryAfterSuccess | pkg/webhooks/worker.go:110-147 | after an accepted try an event is never tried again |
| WebhookRuns.FailedTryIsFollowedUp | pkg/webhooks/worker.go:117-143 | after a refused try the event waits for the next one, or is given up iff it had them all |
| WebhookRuns.DeadIffAllTriesFailed | pkg/webhooks/worker.go:117-143 | an event is given up iff it was tried retry attempts + 1 times and never accepted |
| WebhookRuns.RecordedIffPublished | pkg/webhooks/producer.go:46-93 | exactly the published events are tried, and none when webhooks are disabled |
| WebhookRuns.AddressIsKept | pkg/webhooks/producer.go:96-113 | an event goes to the address it was published for, through all retries |
| WebhookRuns.TimestampIsOfTheAttempt | pkg/webhooks/producer.go:96-113 | an entry's timestamp is that of its attempt: after the backoff, not in the future |
| WebhookRuns.ReadsTakeBatches | pkg/webhooks/worker.go:66-78 | n reads take n full batches of the unread entries, or all of them |
| WebhookRuns.BatchIsARun | pkg/webhooks/worker.go:84-88 | what a worker makes of a batch is steps of the machine, in order |
| WebhookRuns.AttemptsAreBounded | pkg/webhooks/worker.go:117-143 | at most retry attempts + 1 tries, the k-th gap at least the smaller of retry delay * 2^k and five minutes; a dead event had them all |
| WebhookRuns.DeliveriesAreSpaced | pkg/webhooks/worker.go:117-132 | in every run two tries of an event are of different attempts, n < m, and at least the smaller of retry delay * 2^n and five minutes apart |
| WebhookRuns.WorkComesToAnEnd | pkg/webhooks/worker.go:94-147 | a measure bounds the steps the workers make without new messages |
| WebhookRuns.WorkGoesOn | pkg/webhooks/worker.go:122-132 | while there is work a step can be made, if need be after a wait |
| WebhookRuns.DoneMeansSettled | pkg/webhooks/worker.go:94-147 | when the work is done every event is delivered or dead |
| Reconnect.BaseGrows | pkg/sdk/client.go:60-67 | before jitter, delays never shrink and stay below the cap |
| Reconnect.BaseIsGeometric | pkg/sdk/client.go:60-67 | the first delay is the configured minimum, each later one the multiplier times the one before, up to the cap |
| Reconnect.JitterSpreadsEvenly | pkg/sdk/client.go:69-75 | every delay lies in the jitter's range around the base, which the least draw reaches and the draws fill evenly |
| Reconnect.MaximumHoldsIffJitterFits | pkg/sdk/client.go:60-75 | the documented maximum holds for every draw iff the jittered base fits |
| Reconnect.DefaultExceedsMaximum | pkg/sdk/client.go:49-57 | with the default settings it fails from the sixth delay on |

## Left out

- HTTP handlers, WebSocket framing, JSON, logging, metrics, JWT, HMAC signatures, CORS and configuration loading: no hard property.
- The hub's connection and subscription maps, event distribution and channel buffering: only its fresh session ids are used.
- Redis errors, Redis Cluster slots and script loading: commands succeed on one store.
- Several scopes at once: a store is one scope; module Keys shows when scopes keep apart. The Pub/Sub channel name is not a key.
- Disconnect jobs at command level, and the contents of published events there other than the tab counts of sweeps and repairs: the CMD machine has the presence operations, pauses and ends of scans.
- Reads whose reply only goes into a result (tab count and version of a presence change, scope counts) are not steps of the CMD machine.
- Debounce.Debouncer.ExecuteJob: the branch that re-reads an empty aggregate (pkg/presence/debouncer.go:370-376) cannot be taken, a disconnect that is not offline always reports one.
- Presence.Service.SetSessionPresenceState: trimming and lower case are those of ASCII, not of Unicode.
- JobRuns.DueJobsDrain: needs a positive delay, which `Validate` demands (pkg/config/config.go:223-228); with no delay, jobs scheduled in the same millisecond could overtake.
- Sdk.SubscriberConverges: `ResetVersions`, called after re-fetching a snapshot, starts a new filter and is not a step.
- Reconnect.MaximumHoldsIffJitterFits: exact reals stand for floating point.
- WebhookRuns.EveryEventIsInOnePlace: appends succeed and no worker is stopped, so entries left unacknowledged by a stopped worker do not occur; webhook events have ids of their own.
- `isUserFlapping`, device queries, cursor parsing and reconnection goroutines: easy members or scheduler-dependent plumbing.
