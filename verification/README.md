# Verified model of the osmose client core

osmose is a Go client for a chat service. It keeps an opt-in cache of users, communities, channels,
members, roles and messages, fed by the results of calls and by gateway updates, while connections come
and go. This project models the parts whose correctness lies in how they run together, and proves what
they promise. The command `dafny verify dfyconfig.toml` verifies the whole project.

- `EntityKeys`, `Recency`, `CacheModel`, `CacheTheorems`: the key space; one recency sequence per kind; the
  cache's operations as functions on them; what every run keeps, up to the revision fence and the
  comparison of two capacities. `Fate` says what an operation does to one key in an unbounded cache.
- `CacheStore`: the cache as built, a map beside linked lists changed in place, refining that model.
- `Projection`, `ProjectionTheorems`, `ProjectionGuarantees`: how results, updates and mutations become
  programs of cache operations, and what those programs mean key by key.
- `Lookups`: what a caller finds afterwards, through the managers and by the entities' own fields.
- `Writers`: the same transforms as the code performs them, entity by entity on the cache, refining the programs.
- `ObjectClient`: the flights and the regions of `Call` under each lock, refining cache actions and protocol steps.
- `FlightKeys`, `Protocol`, `ProtocolTheorems`, `Refinement`: calls, flights, brokers, readers, teardown and
  cache as one machine in which every locked region and every hand-over is a step, with provenance marks.
- `CallTheorems`: what one call goes through there: whom it follows, on which connection it is sent, whose answer it returns.
- `Coherence`, `CoherenceSteps`, `CoherenceTheorems`: the client against a server that keeps a log of its states, announces them
  and answers over ordered streams.
- `RpcBroker`, `BrokerRuns`: the broker in place, and its steps interleaved with draws and sends.
- `Lifecycle`, `Client`: ready gate, run flags, waiters; routing, frames and teardown of a connection.
- `Collectors`, `Backoff`, `Scheduler`: the event collector, the reconnect delay, the rate scheduler.

Three promises do not always hold of the code; each has a failing case and its exact condition.

- Authorization stores the returned user as an update but outside the ordered handling of frames, so a newer
  update of that user that was handled first is overwritten: `CoherenceTheorems.AuthorizationCanGoStale` and
  `CoherenceTheorems.AuthorizationCoherentIff`.
- `Broker.Register` draws forever if all 2^32-1 ids are pending: `RpcBroker.NoDrawIsFree` and
  `RpcBroker.SomeDrawIsFreeIff`.
- After a `Run` that ended without a `Close`, `WaitReady` waits for good, and a later `Close` returns without
  waking it: `Lifecycle.StuckExists` and `Lifecycle.StuckForever`; in every other state it can be woken:
  `Lifecycle.WakeIsPossible`.

Time is a natural number of nanoseconds given to each operation; one operation reads the clock once.
Revisions are unbounded naturals, while request ids wrap at 2^32. Values are immutable, so a clone is the
value itself. Fields that no projection touches are one opaque `rest`. Runs of `Protocol` may
start in any state that satisfies its invariant, of which `Init` is one; all other runs start at the beginning.

## Model

| member | source | states |
|---|---|---|
| EntityKeys.ChatRefRoundTrip | types/types.go:410-480 | exactly the valid references encode; each decodes to itself, and a wire value that decodes to a valid reference is what that reference encodes to |
| EntityKeys.ChatsAreMadeFromIds | types/types.go:400-480 | exactly the chats made from nonzero ids, and the self chat, are valid; the wire form of each names its kind; an absent or unset reference is no chat |
| EntityKeys.MessageKeyInjective | types/state.go:113-126 | a valid chat shares no message key with any other chat, valid or straight off the wire, nor one message with another |
| EntityKeys.ChatManagerSelectsItsChat | types/managers.go:125-135 | a message manager scoped to a chat matches exactly the keys of that chat; for a channel those are the keys a channel invalidation sweeps |
| EntityKeys.ManagerSelectsItsScope | types/managers.go:92-135 | a manager of the other kinds names entities by scope and id, for channels, members and roles only with a scope, and matches its kind within its scope, so whatever it names |
| EntityKeys.MessageManager | types/managers.go:92-135 | a message manager names messages of a valid chat only, matches what it names, and without a chat matches by scope |
| FlightKeys.FlightKeyInjective | types/state.go:48 | the type:revision:content key determines all three, although content may hold colons |
| FlightKeys.SharedReadsAreEqual | types/state.go:43-49 | two reads under one key are the same request at the same captured revision |
| Recency.StoreKeeps | internal/state/cache.go:132-149 | storing puts the entry in front, keeps keys distinct and the bound, and costs at most one other entry: the last one of a full list that gained a key, never the new one |
| Recency.TouchKeeps | internal/state/cache.go:184-195 | moving an entry in front keeps every entry, every lookup and the length |
| CacheModel.ApplyLookup | internal/state/cache.go:132-182 | every writer operation gives every key exactly the fate that its own rule prescribes, except the one entry an overflowing Put evicts |
| CacheTheorems.ExecFate | internal/state/cache.go:132-182 | a whole transform gives every key its fate, when the lists have room for what it stores |
| CacheTheorems.ExecLossy | internal/state/cache.go:132-182 | without room a transform of complete values can lose an entry but never files anything other than its fate |
| CacheTheorems.ExecBacked | internal/state/cache.go:132-182 | eviction, expiry and partial values can hide what an unbounded cache would hold, never contradict it |
| CacheTheorems.ExecRemovals | internal/state/cache.go:164-182 | a transform of deletions leaves a subsequence of every list, survivors unchanged |
| CacheTheorems.RunValid | internal/state/cache.go:62-72 | in every run of all operations each list is duplicate free, of its own kind, and within max(0, limit) |
| CacheTheorems.ReadsKeepOrder | internal/state/cache.go:184-213 | List leaves every recency list a subsequence of what it was; Get moves exactly the live entry it returns to the front; which lookups that changes is ReadLookup |
| CacheTheorems.ReadLookup | internal/state/cache.go:184-213 | List removes exactly the expired matches and Get only the expired entry under its key: every other lookup stays what it was |
| CacheTheorems.CommitLookup | internal/state/cache.go:97-128 | with room every key gets the fate of the program that a Change runs always, an Accept only at the captured revision, a Mutate at that revision as the edit and at any other as the invalidation |
| CacheTheorems.PutIsFound | internal/state/cache.go:132-162 | what Put stores is found until put time plus TTL and no longer; it stores nothing for id 0, an unknown or disabled kind, or a partial value over an unexpired complete one |
| CacheTheorems.RevisionGrows | internal/state/cache.go:98-128 | the revision never falls and grows across every Change and Mutate |
| CacheTheorems.RevisionFence | internal/state/cache.go:68-69 | once any Change or Mutate commits, no Accept and no editing Mutate with an earlier captured revision takes effect, over every run |
| CacheTheorems.AtMostOneEdits | internal/state/cache.go:116-128 | of all mutations racing from one captured revision only the first edits; the others invalidate |
| CacheTheorems.CapacityOnlyKeepsMore | internal/state/cache.go:132-149 | two caches that differ only in their limits, fed the same actions at the same clock readings: the smaller lists are subsequences of the larger, short of them by at most the difference of the limits |
| CacheTheorems.PartialValuesBreakContainment | internal/state/cache.go:136-141 | a concrete run in which that fails with a partial value, because the larger cache refuses what the smaller accepts |
| CacheStore.Cache.constructor | internal/state/cache.go:74-89 | an enabled kind has its configured limit or the default, -1 and a disabled cache store nothing; the default TTL replaces zero |
| CacheStore.UnlinkKeeps | internal/state/cache.go:178-182 | removing an element from map and list keeps both in step and is the removal of its key from the recency list |
| CacheStore.LinkKeeps | internal/state/cache.go:145-146 | pushing an element whose key is new keeps map and lists in step |
| CacheStore.Cache.ItemsAreLookups | internal/state/cache.go:62-66 | the map finds exactly the entries that the lists hold |
| CacheStore.Cache.Put | internal/state/cache.go:132-149 | map and lists after Put are the model's: refused for id 0, an unknown or disabled kind, or a partial value over a live complete one; else stored in front, the last entry evicted on overflow |
| CacheStore.Cache.Read | internal/state/cache.go:151-162 | returns exactly a live entry and leaves the order alone; an expired entry is removed |
| CacheStore.Cache.Delete | internal/state/cache.go:164-168 | exactly the key is removed |
| CacheStore.Cache.DeleteWhere | internal/state/cache.go:170-176 | the loop over the map removes exactly the matching keys and keeps the order of the rest |
| CacheStore.Cache.List | internal/state/cache.go:197-213 | returns every live match exactly once; of every key the lookup is gone if it matched and had expired, else what it was |
| CacheStore.Cache.Get | internal/state/cache.go:184-195 | returns exactly a live entry and moves it to the front; of every key the lookup is gone if it is this one and had expired, else what it was |
| CacheStore.Cache.Perform | internal/state/cache.go:130-182 | a transform run step by step on map and lists refines the same program on recency lists |
| CacheStore.Cache.Change | internal/state/cache.go:97-103 | the revision advances and the transform runs |
| CacheStore.Cache.Accept | internal/state/cache.go:105-114 | the transform runs only if the revision is the captured one |
| CacheStore.Cache.Mutate | internal/state/cache.go:116-128 | the revision advances; the edit runs if it was the captured one, the invalidation otherwise |
| CacheStore.Cache.Invalidate | internal/state/cache.go:215-217 | exactly the matching keys are gone and the revision has advanced |
| CacheStore.Cache.Clear | internal/state/cache.go:219 | every list is empty and the revision has advanced |
| ProjectionTheorems.ObserveResultFate | types/state.go:188-282 | what observing any read result makes of any key, without reference to loops: gone if unavailable, else the last entity carried for it, else gone if the list shows it missing, else as before; which key an entity belongs under is written out by fields (Owns, Placeable) |
| ProjectionTheorems.ApplyUpdateFate | types/state.go:299-383 | what any gateway update makes of any key: the last entity carried, the last status given set on a live user with its other fields kept, a partial member, gone, or as before |
| ProjectionTheorems.KeysAreOwned | types/state.go:109-175 | the key and the guard of every put helper by fields: kind, community if the kind has one, id, and of a message the number and parent of its chat |
| ProjectionTheorems.ScopesAreFilledIn | types/state.go:143-166 | a member or role stored keeps every field but an absent community, which becomes the one asked about |
| ProjectionGuarantees.AmendFate | types/state.go:415-467 | an edit in place rewrites exactly the fields the request gives of a live entry, keeps its completeness, drops an expired one |
| ProjectionGuarantees.MutationFate | types/state.go:408-469 | what an unraced void mutation makes of any key: nothing outside what it touches; amended, stored or gone inside |
| ProjectionGuarantees.AnswerFate | types/state.go:396-407 | what an answered mutation makes of any key: a sent message is stored partially unless a complete one is live, members reported removed go, and nothing else changes |
| ProjectionGuarantees.RacedFate | types/state.go:471-492 | a raced mutation removes exactly what the request touches, through both case analyses and the fall-through |
| ProjectionGuarantees.RacedMutationsOnlyShrink | types/state.go:471-492 | a raced mutation leaves a subsequence of every list with unchanged entries, and nothing under any key the unraced edit would have changed |
| ProjectionGuarantees.ObservedLookup | types/state.go:188-282 | after a read is observed each key holds its fate or, only for want of room, nothing |
| ProjectionGuarantees.RunFiled | types/state.go:109-175 | in every run whatever is cached under a key is an entity of that kind, community and id, a message of that chat, by its fields; so the type assertions on cached values hold |
| ProjectionGuarantees.CommunitiesAreAuthoritative | types/state.go:190-204 | after a community list every cached community, and every scoped entry of any kind, belongs to a listed and available community |
| ProjectionGuarantees.ChannelsAreAuthoritative | types/state.go:205-220 | after a channel list every cached channel of the community is listed and every cached message of it is in a listed channel or carried |
| ProjectionGuarantees.MembersAreAuthoritative | types/state.go:221-239 | a requested member missing from a targeted response is absent; a bulk list leaves only its own members |
| ProjectionGuarantees.RolesAreAuthoritative | types/state.go:240-248 | after a role list the cached roles of the community are among those returned |
| ProjectionGuarantees.ChatSweepsAreExact | types/state.go:290-295 | clearing a chat removes exactly its messages, invalidating a channel those and the channel; survivors keep value and order |
| Lookups.StoredWhereManaged | types/managers.go:90-135 | an entity with an id is stored exactly if the manager of its own kind, community or chat can name it, and under the key by which that manager asks |
| Lookups.CarriedIsFound | types/state.go:188-282 | with room, every entity that a read result carries last for its key is found afterwards, complete and unchanged, by its own manager |
| Lookups.ListedChannelsAreFound | types/state.go:205-220 | a listed channel is found by the community's channel manager and a later deletion of it removes it |
| Lookups.StatusIsSet | types/state.go:376-383 | after a status or a batch, a live user has the last status given to it, every other field and its completeness unchanged |
| Lookups.UpdatedLookup | types/state.go:297-374 | with room, handling an update leaves every key what the update makes of it and advances the revision |
| Lookups.ReadsAreAccepted | types/state.go:68-107 | each of the thirteen reads is observed if the revision is the one captured and has no effect otherwise; it never advances the revision |
| Lookups.MutationsCommit | types/state.go:73-107 | every other request advances the revision, and takes its full effect at the captured revision or removes exactly what it touches |
| Writers.Observe | types/state.go:128-282 | the entity-by-entity observation of any result, with the cache's own puts and deletes and the put helpers' guards, does what the program does whose per-key meaning ObserveResultFate gives by the entities' own fields |
| Writers.Mutated | types/state.go:393-469 | the edits of any mutation, reading, changing and putting back what is cached, do what the program does whose per-key meaning MutationFate and AnswerFate give |
| Writers.Raced | types/state.go:471-492 | the invalidation of any raced mutation does what the program does whose per-key meaning RacedFate gives |
| Writers.Handle | types/state.go:299-383 | the handling of any update, status reads included, does what the program does whose per-key meaning ApplyUpdateFate and StatusIsSet give |
| ObjectClient.ObjectClient.Update | types/state.go:299-303 | an update is one Change: the revision advances and the update is handled in the same region |
| ObjectClient.ObjectClient.ClearCache | types/state.go:385-391 | the cache is empty and reads in flight are fenced off |
| ObjectClient.ObjectClient.AcceptRead | types/state.go:71-72 | a read result is observed only if the revision is still the one captured before the call |
| ObjectClient.ObjectClient.MutateCache | types/state.go:73-77 | a mutation result is observed, or evicts if anything committed since the revision was captured |
| ObjectClient.ObjectClient.Settle | types/state.go:69-78 | an error leaves the cache alone; a result is accepted or mutates by the kind of request |
| ObjectClient.ObjectClient.Enter | types/state.go:50-67 | a read joins the pending flight of its key, or leads a new one while fewer than 256 are tracked, or goes alone; the table is the one the protocol's step leaves |
| ObjectClient.ObjectClient.Land | types/state.go:80-89 | the leader removes exactly its own flight, publishes its outcome and then wakes its followers; the table is the one the protocol's step leaves |
| ObjectClient.ObjectClient.Get | types/managers.go:118-123 | an unnameable id finds nothing and touches nothing; any other is one cache lookup under its key |
| ObjectClient.ObjectClient.InvalidateOne | types/managers.go:136-144 | exactly the manager's entries with that id are gone, and reads in flight are fenced off even if none was cached |
| ObjectClient.ObjectClient.ClearManager | types/managers.go:146-151 | exactly the entries the manager matches are gone |
| Protocol.NextKeepsInv | types/state.go:29-94 | every step of calls, flights, brokers, readers and teardown keeps the invariant: pending calls and broker tables agree, leaders own their flights, closed brokers are empty, cleared connections left nothing |
| ProtocolTheorems.ConnectionIsolation | internal/client/client.go:511-525 | in every run, once the cleanup of a connection has cleared the cache, no entry cached then or ever after came from a result or update of that connection |
| ProtocolTheorems.ClosedBrokersStayEmpty | internal/rpc/broker.go:88-107 | after a broker is closed no call ever waits on it again |
| ProtocolTheorems.DetachedStaysInactive | internal/client/client.go:511-525 | a connection whose teardown is over is never the active one again |
| ProtocolTheorems.SingleFlight | types/state.go:50-92 | at most one unreturned leader per key and 256 flights; a follower makes its leader's request at its leader's captured revision and returns its outcome |
| ProtocolTheorems.LeaderRemovesOwnFlight | types/state.go:80-89 | in every run a landing leader's key still maps to its own flight, and only that mapping goes |
| ProtocolTheorems.EventSeparatesReads | types/state.go:45-61 | in every run a call started after any step that advanced the revision never follows a call started before it |
| CallTheorems.ReadsCoalesce | types/state.go:43-67 | in every run a read follows the unreturned leader with its request and captured revision if there is one, and else leads exactly while fewer than 256 flights are tracked; no other request does either |
| CallTheorems.OwnAnswer | types/state.go:68-93 | in every run a call that returns a result returns the one that came over the connection that was active when it was bound, under the id it waited under, and that the cache observed for it; a follower returns what its leader so obtained |
| CallTheorems.AnswerIsReturned | types/state.go:68-93 | whatever result arrives for a waiting call, the run can go on until the call has returned it and the cache has observed it |
| ProtocolTheorems.MarksAreInvisible | internal/state/cache.go:97-128 | the provenance marks that isolation speaks of do not influence what is cached |
| Refinement.StepsAreActions | types/state.go:68-78 | every step of the protocol is exactly one cache action, or leaves the cache alone |
| Refinement.RunsAreTraces | types/state.go:29-94 | every run of the protocol is a run of cache actions that are all projections, so all theorems about cache runs hold of it |
| Refinement.CachedUnderOwnKeys | types/state.go:109-175 | from an empty cache, every run of the protocol files under a key only an entity of that kind, community and id, or a message of that chat, by its fields |
| Coherence.UpdateKeepsCoherence | types/state.go:297-374 | applying an update moves what is cached of each key with the server, and mends it if the update carries or removes the key |
| Coherence.ReadKeepsCoherence | types/state.go:188-282 | observing a truthful result keeps what is cached of each key in agreement with the server, and mends what it carries |
| CoherenceTheorems.EffectiveReadIsCurrent | internal/state/cache.go:105-114 | in every run, whatever a read that takes effect carries is the server's at the applied position of its log and is all that the cache holds of it afterwards, completely |
| CoherenceTheorems.EffectiveReadIsStored | internal/state/cache.go:105-114 | and with room it is stored: every entity it carries is cached completely, unless the result withdraws its community |
| CoherenceTheorems.HandledUpdateIsStored | internal/client/client.go:489-509 | in every run a handled update leaves, with room, every key what the update makes of it, moves on by one position of the log and fences the reads in flight |
| CoherenceTheorems.ReadCoherence | internal/client/client.go:489-509 | in every run of reads, updates, authorizations, invalidations and reconnects each complete cached entry equals the server's at the applied position of its log, the updates still to handle being exactly those logged after it; the one exception is the stored user of an authorization that updates had changed; while disconnected nothing is cached |
| CoherenceTheorems.ViewWasCurrent | internal/client/client.go:489-509 | the state the cache agrees with is one the server was in, when its log ended just there |
| CoherenceTheorems.AuthorizationCoherentIff | internal/client/client.go:392-397 | in every run, storing the user that authorization returned keeps its key coherent if and only if the updates handled since the answer leave the user what it was, or it is not cacheable; none mentioning it suffices |
| CoherenceTheorems.AuthorizationCanGoStale | internal/client/client.go:392-397 | a run of the answer and one update of the same user after which the store puts the older user over the newer one |
| RpcBroker.SomeDrawIsFree | internal/rpc/broker.go:38-58 | of any |pending|+2 consecutive ids one is nonzero and free, if fewer than 2^32-1 calls are pending |
| RpcBroker.SomeDrawIsFreeIff | internal/rpc/broker.go:38-58 | some id is ever free if and only if fewer than 2^32-1 calls are pending |
| RpcBroker.NoDrawIsFree | internal/rpc/broker.go:38-58 | the input at which a registration never ends: all 2^32-1 ids pending |
| RpcBroker.Broker.Register | internal/rpc/broker.go:38-58 | takes the first free nonzero id in drawing order within |pending|+2 draws, with wrap; refuses exactly when closed |
| RpcBroker.Broker.Resolve | internal/rpc/broker.go:60-75 | exactly the call pending under the id gets the result, once; an unknown id changes nothing |
| RpcBroker.Broker.Cancel | internal/rpc/broker.go:77-86 | forgets the id only if it is still the named call's |
| RpcBroker.Broker.FailAll | internal/rpc/broker.go:88-107 | closes the broker and sends every pending call exactly one error |
| BrokerRuns.ExactlyOnceCompletion | internal/rpc/broker.go:60-107 | in every interleaving each call is pending, claimed, sent or cancelled, receives at most the one outcome it was claimed with, and no send blocks |
| BrokerRuns.FailAllFailsEachOnce | internal/rpc/broker.go:88-107 | after FailAll nothing is ever pending, and each call pending then gets that error and nothing else |
| BrokerRuns.ResultReachesItsCall | internal/rpc/broker.go:60-75 | in every interleaving a result that arrives while a call is pending under its id is the one outcome that call ever gets |
| BrokerRuns.CancelledGetsNothing | internal/rpc/broker.go:77-86 | a cancellation in the call's own name, or in none, takes it out for good and it never gets anything; one in another's name leaves it as it was |
| BrokerRuns.LateResultsAreIgnored | internal/rpc/broker.go:60-75 | in every run a result for a call that is no longer pending never reaches it, and changes nothing unless another call holds its id a full wrap of all ids apart |
| BrokerRuns.IdsReturnAfterFullWrap | internal/rpc/broker.go:38-58 | two calls share an id only if every uint32 value was drawn in between |
| Client.Client.Choose | internal/client/client.go:322-343 | a call goes through, on the active connection, exactly when the client is open and connected and is ready or the call belongs to the handshake; the error otherwise |
| Client.Client.HandleFrame | internal/client/client.go:489-509 | a result reaches only its pending call, an update only the cache |
| Client.Client.CleanupActive | internal/client/client.go:511-525 | broker closed with one error per pending call, reader gone, cache empty and fenced, the connection given up only if still active, the ready gate reset unless closing |
| Client.ReportedResets | internal/client/client.go:511-525 | after the teardown the client is Disconnected with an open ready channel and every earlier one closed, or still closing |
| Lifecycle.SetStateKeepsGate | internal/client/client.go:536-558 | setState closes a ready channel at most once and before replacing it; the current one is closed in Ready and Closing and open in Disconnected |
| Lifecycle.SetStateIsExact | internal/client/client.go:536-558 | entering Disconnected replaces the ready channel, closed, by an open one; Ready and Closing close it; no other change of state touches a channel |
| Lifecycle.StateGate.Set | internal/client/client.go:536-558 | the state and channels after setState are the gate function's |
| Lifecycle.RunFlags.Enter | internal/client/client.go:186-204 | a run enters unless the client is closed, running or has run; the error in each case |
| Lifecycle.RunFlags.Leave | internal/client/client.go:212-215 | the run is recorded as over, and the next Run is refused |
| Lifecycle.NoRunAfterTheFirst | internal/client/client.go:186-215 | in every run of the lifecycle, once a Run has left every later Run is refused |
| Lifecycle.RefusalsAreExact | internal/client/client.go:186-204 | in every run, which Run goes on and which error each refused one returns: the client is closed, another Run is under way, or another is over |
| Lifecycle.RunFlags.Close | internal/client/client.go:256-273 | what a Close has still to do, by whether the client was closed, had run, or had started |
| Lifecycle.NoLostWakeup | internal/client/client.go:157-177 | in every interleaving a waiter blocked on an open channel holds the current one, the client is neither ready nor closing, and no Close has announced itself |
| Lifecycle.WaitReadyVerdict | internal/client/client.go:157-177 | in every interleaving WaitReady succeeds only after its last reading of the state was Ready, and returns ErrClosed only after it was another and was Closing or the client is closed |
| Lifecycle.CheckDecides | internal/client/client.go:165-170 | and conversely: a waiter that read Ready succeeds even if the client was closed since, one that read another state gets ErrClosed exactly if that was Closing or the client is closed by then, and blocks on the channel it read otherwise |
| Lifecycle.SignalsAreKept | internal/client/client.go:157-177 | if the client was ready or closing at any moment since a waiter blocked, the channel it blocked on is closed ever after |
| Lifecycle.StuckForever | internal/client/client.go:266-268 | once the run has ended without a Close, a waiter blocked on the open channel is blocked in every continuation |
| Lifecycle.StuckExists | internal/client/client.go:157-177 | a run of the lifecycle that reaches such a wait |
| Lifecycle.WakeIsPossible | internal/client/client.go:157-177 | in every other reachable state some continuation wakes the waiter |
| Lifecycle.RunsOnce | internal/client/client.go:182-291 | at most one Run enters its loop; done closes at most once, and only when the run is over or the client was closed before one started |
| Lifecycle.DoneIsReached | internal/client/client.go:212-290 | done has closed once a run is through, and once a Close is through if no run has started; a Close that is through leaves the client closed or its run over |
| Collectors.Collector.constructor | collectors/collector.go:120-167 | an empty open collector, its first idle timer armed |
| Collectors.Collector.Handle | collectors/collector.go:240-272 | the fields after an event are the core function's |
| Collectors.Collector.EndLocked | collectors/collector.go:325-360 | an open collector ends with the reason given, stopped for an empty one, and with the cause given or the error of a time, idle, overflow, context or client-close reason; the callback is owed if registered; an ended one is left alone |
| Collectors.Collector.EndIdle | collectors/collector.go:286-297 | a timer of an earlier generation does nothing |
| Collectors.Collector.Take | collectors/collector.go:200-225 | a buffered event first, in order, even after the end; then the reason for the end |
| Collectors.Collector.SetRemove | collectors/collector.go:299-311 | the callback is kept while open and owed at once after the end |
| Collectors.CollectorStream | collectors/interaction_collector.go:103-134 | in every interleaving consumed then buffered events are the accepted ones in order, all those offered until the end; count exact, buffer bounded, maximum respected and ending with reason limit |
| Collectors.FirstTerminatorWins | collectors/interaction_collector.go:185-220 | after the first terminator result and accepted events never change and each channel has been closed once; what that result is, ResultIsTheTerminators says |
| Collectors.EndsExactlyWhen | collectors/interaction_collector.go:103-199 | an open collector is ended by every terminator, by an idle timer exactly if nothing was accepted since it was armed, by an event exactly if it finds the buffer full or is the last allowed, and by nothing else |
| Collectors.ResultIsTheTerminators | collectors/interaction_collector.go:76-220 | at every moment after, in every run, reason and error are those of the step that ended the collector, an error of the reason exactly for time, idle, overflow, context and client close without a cause |
| Collectors.RemovedExactlyOnce | collectors/interaction_collector.go:159-220 | the remove callback runs once, after the end and the registration in either order |
| Collectors.IdleEndsOnlyWhenQuiet | collectors/interaction_collector.go:136-157 | an idle timer ends the collector only if nothing was accepted since it was armed |
| Collectors.OverflowKeepsTheBuffer | collectors/interaction_collector.go:103-134 | the event that finds the buffer full ends the collector and is not accepted; from then on exactly the events buffered then are read, in order, down to the last |
| Backoff.Backoff.constructor | internal/gateway/backoff.go:17-25 | 0 < minimum <= maximum whatever was configured |
| Backoff.Backoff.Base | internal/gateway/backoff.go:27-43 | the doubling loop computes min(minimum * 2^attempt, maximum) for every attempt, and no step leaves 64 bits |
| Backoff.CappedRises | internal/gateway/backoff.go:27-43 | that delay is monotone in the attempt and between minimum and maximum |
| Backoff.CappedDoubles | internal/gateway/backoff.go:27-43 | it doubles with each attempt until it stays at the maximum |
| Backoff.JitterStaysClose | internal/gateway/backoff.go:44-47 | the jittered delay is from 0.8 to below 1.2 of the delay |
| Backoff.JitterSpansItsRange | internal/gateway/backoff.go:44-47 | the jittered delay grows strictly with the draw, from 0.8 of the delay through the delay itself to 1.2 of it |
| Backoff.Backoff.Delay | internal/gateway/backoff.go:27-53 | the jittered closed form, truncated and clamped, always in [1, maximum], even where the conversion is out of range |
| Scheduler.Scheduler.Wait | internal/scheduler/scheduler.go:19-35 | a call takes exactly the schedule's first slot and leaves the schedule of the calls to come; no slot without an interval |
| Scheduler.SlotsAreFeasible | internal/scheduler/scheduler.go:27-35 | no slot is before its call and each is an interval after the one before |
| Scheduler.SlotsAreEarliest | internal/scheduler/scheduler.go:27-35 | no other schedule that keeps the interval is earlier anywhere |
| Scheduler.WindowBound | internal/scheduler/scheduler.go:27-35 | any closed window of length L holds at most L/interval + 1 slots |

## Left out

- CacheStore.Cache.List: the order of the result is left open, as the map's iteration order is.
- CacheStore.Cache.Put: a nil value, which the code ignores, does not exist in the model; and the code reads the clock twice in one Put, the model once.
- CacheTheorems.CapacityOnlyKeepsMore: excludes partial values, with which it is false (`CacheTheorems.PartialValuesBreakContainment`).
- CacheTheorems.RevisionFence: does not model the wrap of the 64-bit revision.
- CoherenceTheorems.ReadCoherence: local mutations, partial entries and roles that change without an event are not claimed to agree with the server, since the protocol does not order or announce them.
- CoherenceTheorems.AuthorizationCoherentIff: the only-if half needs updates that tell of every user that comes or goes, since a user withdrawn and silently back cannot be told from the updates.
- Collectors.CollectorStream: the event filters and option validation are not modelled; an offered event is one that already matched. Timers and contexts are steps that may happen at any time.
- Backoff.Backoff.Delay: the rounding of float64 is not modelled; the product is a real number.
- Scheduler.Scheduler.Wait: the sleep itself is not modelled; a cancelled call keeps its slot, as in the code. Real timers may release calls later than their slots.
- RpcBroker.Broker.Register: requires that some id is free, because the code does not return otherwise.
- Lookups.CarriedIsFound: with room in the kind's list; without it an entity can be evicted again by those stored after it, and `ProjectionGuarantees.ObservedLookup` says what is left.
- ProjectionGuarantees.ChannelsAreAuthoritative: listed means listed by id, as in the code, which does not compare the community of a listed channel.
- Client.Client.CleanupActive: the teardown as one piece; its interleavings are the Cleanup steps of `Protocol`. The socket and the reader's end are flags.
- Client.Client.Choose: the state, the closed flag and the active connection are read at one moment; the code reads them one after the other.
- Lifecycle.WakeIsPossible: that some continuation wakes a waiter, not that every one does; scheduling and a waiter's own context are left out.
- Protocol.NextKeepsInv: a resolved call's channel send is one step with its removal; `BrokerRuns` separates the two.
- The calls of the handshake itself, which bypass `Call` and touch no cache; of authorization only the answer and the storing of its user are steps.
- FlightKeys.SharedReadsAreEqual: the encoding of requests is a decimal one; of the protobuf encoding only that it determines the request is used.
- Nil clients, managers and contexts.
- A manager's sorting of cached snapshots by id, and the conversion of cached values to rich objects.
- Service packages, request builders, voice, generated code and the wrapping of requests: field copying.
- The event dispatcher and listener lists: a bounded queue, covered in a harder form by the collectors.
- WebSocket dialing, reader and writer loops, keepalive and logging: input and output.
