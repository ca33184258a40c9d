# Models of the playground control plane, the LLM proxy and the skill bundle tools

Dafny models of four parts of the repository, with proofs. `dafny verify dfyconfig.toml` checks everything.

**Sessions, pod leases and tokens** (`TokenRegistry`, `PodPool`, `ControlPlane`, `LeaseSafety`, `LeaseTheorems`,
`LeaseTokens`, `LeaseSharing`, `LeaseCalm`, `LeaseStranded`, `LeaseWitnesses`, `LeaseOverfill`, `LeaseFates`,
`LeaseSteps`, `EventLoop`, `EphemeralPods`). The skill-runner runs on one asyncio loop, so a step of the model is the
code between two awaits that can suspend. Any number of creates, DELETEs, beacons, reaper rounds and `warm` calls are
interleaved. `EventLoop.ControlPlane` is the imperative code, block by block, each proved equal to its step and to keep
the invariant. `EphemeralPods` is the mode without a pool, one session at a time. The theorems are about all runs: who
may hold a lease, what a token resolves to, how often a session is torn down, how long the idle list gets.
`PodPoolManager.Acquire` is the allocator without interference, with its clock, its probes and its spawns as parameters.

**Turns of a session** (`Turns`, `TurnTheorems`, `TurnGrammar`, `TurnReplies`, `TurnServer`). `send_message`,
`_drive_turn`, the event queue, and what ends a session around them.

**Accounting in the LLM proxy** (`Calendar`, `Budgets`, `BudgetEquivalence`, `BudgetEdges`, `BudgetStores`, `Proxy`,
`ProxyGate`, `ProxyBudget`, `ProxyOvershoot`, `ProxyPrompt`, `ProxyTransit`, `ProxyCalls`, `ProxyServer`,
`UsageScanner`, `UsageAgreement`, `UsageLaws`). Two budget stores against one ledger, the semaphore, the limiter that
checks before a call and counts after it, and the two readers of token usage.

**Skill bundles** (`Text`, `Trees`, `TreeLaws`, `SkillBundle`, `BundleArchive`, `BundleLayout`, `BundlePack`,
`BundleTrip`, `BundlePublish`, `BundleFilter`, `BundleRules`, `BundleYaml`, `BundleInstall`, `BundleAsset`,
`BundleTools`, `BundleWitness`). A tree is a finite map from paths to contents, an archive a list of named entries;
parsing SKILL.md and plugin.yaml is a parameter (`Formats`). Packing, publishing and installing infer the layout again
on each side, and the theorems say that the trip gives back the same files. `BundleRules`, `BundleFilter`, `BundleYaml`
and `TreeLaws` say in plain terms which skills are valid, which files are packed, what the published plugin.yaml holds
and which entry names are let through; `BundleAsset` has the trip of wrapped agent assets.

**Smaller pieces**: the worker's keepalive multiplexer (`Keepalive`), unique member names (`MemberNames`) and the
Git-source deduplicator (`GitSources`).

## What the code does not keep

- A token that a session holds can be unbound and its pod deleted by another session's failing create, if that session
  was destroyed while its own create was provisioning: `LeaseWitnesses.OverlapUnbindsAHeldLease`. Held tokens resolve
  to their holders throughout a run if and only if no create fails to provision a pod that another session records by
  then: `LeaseTokens.HeldTokensResolve`. In runs where every destroy starts after its create returned, a pool token
  resolves to a session exactly when the session holds the lease (`LeaseCalm.TokenBindingExact`).
- Two sessions can be on one pod: while the create of one is still posting its skill and token to the pod, another
  session records it: `LeaseSharing.SomePodIsShared`. It begins exactly when a lease is bound that another create still
  provisions, `LeaseSharing.PodsSharedExactly`, and not in runs where every destroy starts after its create returned,
  `LeaseSharing.CalmRunsShareNothing`.
- A session that is over can keep a pod, which no DELETE takes back: `LeaseStranded.SomePodIsStranded`, and
  `EphemeralPods.SomePodIsStranded` in the mode without a pool. With a pool it does if and only if its create bound the
  lease after the end and nothing freed it since: `LeaseStranded.StrandedExactly`. Without one, an ended session keeps a
  pod that nobody has asked to delete if and only if the pod was made after the end, and since then the create has not
  failed and no teardown took it: `EphemeralPods.StrandedExactly`.
- The idle list can exceed `max_idle`, by as much as the number W of concurrent `warm` calls:
  `LeaseTheorems.IdleBounded`, attained for every W from one up, with session slots enough, by
  `LeaseOverfill.IdleBoundAttained`. It stays within `max_idle` if and only if no `warm` spawn returns onto a full list:
  `LeaseTheorems.MaxIdleExactly`.
- After `end_session` took the entry of a running turn, a second turn starts beside it, and the end of the first drops
  the second one's entry: `TurnTheorems.EndSessionLetsTurnsOverlap`. Turns are one at a time in a run if and only if
  no message is accepted between the taking of a running turn's entry and the end of that turn:
  `TurnTheorems.SerialExactly`.
- A valid skill directory whose plugin.yaml declares `skill` while SKILL.md is of a swarm kind with roles out of order
  packs but does not install: `BundleWitness.SomeSkillPacksButDoesNotInstall`; `BundleTrip.PackInstallTrip` has the
  exact condition, `KindHolds`.
- The daily limit can be overshot by every committed call and every failed check: `ProxyBudget.OvershootBound`,
  attained by `ProxyOvershoot.OvershootAttained`. A call is committed once the counter was read below the limit for it
  or its check failed, until its tokens are added or never will be, and also while it asks about a day that is over.
  Counting only the calls admitted and not accounted is enough where no check suspends, as in the memory store
  (`ProxyPrompt.PromptOvershootBound`), and not with Redis, where a check is answered some time after the counter was
  read: one answer in transit while another call is accounted passes that bound (`ProxyTransit.OneAnswerInTransit`), and
  with many in transit, one call in flight at a time, a day can reach any multiple of a call's tokens
  (`ProxyTransit.AnswersInTransitUnbounded`). Nor is it enough to count the answers in transit too, because a check may
  be read after midnight under the key of the day before (`ProxyTransit.LateReadsUnbounded`). The runs say nothing about
  how long the relays take.
- A call abandoned while it holds a permit of the semaphore costs that permit for good. Once no call is live, all
  permits are free if and only if there was no such call: `ProxyGate.PermitsReturnExactly`.
- The two readers of usage can count a body differently, the last total against the greatest:
  `UsageAgreement.SomeBodyIsCountedTwice`; `UsageLaws.ReadersAgreeExactly` says when they agree.

## Model

| member | source | states |
|---|---|---|
| TokenRegistries.TokenRegistry.Resolve | skill-runner/llm_proxy.py:48-49 | a token resolves to the session it is bound to, or to none |
| TokenRegistries.TokenRegistry.ResolveUser | skill-runner/llm_proxy.py:51-52 | the bound user, or the empty string |
| TokenRegistries.TokenRegistry.Bind | skill-runner/llm_proxy.py:60-63 | the session entry is replaced; an empty user leaves the user table alone |
| TokenRegistries.TokenRegistry.Unbind | skill-runner/llm_proxy.py:65-67 | the token leaves both tables, nothing else changes |
| TokenRegistries.TokenRegistry.RevokeForSession | skill-runner/llm_proxy.py:54-57 | the loop removes exactly the session's tokens from both tables |
| PodPool.PodPoolManager.constructor | skill-runner/executor/pod_pool.py:45-58 | an empty pool whose idle limit is at least the pool size |
| PodPool.PodPoolManager.Acquire | skill-runner/executor/pod_pool.py:88-122 | the idle list becomes a prefix of itself; every removed lease but the one returned is deleted once, in pop order, also on timeout; a reused lease passed both tests and every lease passed over failed one; otherwise the fresh spawn |
| PodPool.PodPoolManager.FitExactly | skill-runner/executor/pod_pool.py:37-39 | a lease is fit exactly if its pod answers and its age plus the least lease lifetime stays within the maximum |
| PodPool.PodPoolManager.DroppedExactly | skill-runner/executor/pod_pool.py:98-120 | a lease passed over was too old, and its deletion raised nothing, or it did not answer |
| PodPool.PodPoolManager.Warm | skill-runner/executor/pod_pool.py:72-75 | appends spawned leases only, up to the pool size or the first failed spawn |
| PodPool.PodPoolManager.Release | skill-runner/executor/pod_pool.py:124-129 | a healthy lease is pooled exactly while there is room, any other is deleted |
| PodPool.PodPoolManager.Shutdown | skill-runner/executor/pod_pool.py:131-137 | the list is emptied; deletions go in order up to the first that raises |
| LeaseSafety.StepKeeps | skill-runner/executor/k8s.py:159-175 | every block of every coroutine keeps the invariant: one place per lease, no lease lost, tokens bound to holders only |
| LeaseTheorems.LeaseExclusivity | skill-runner/executor/pod_pool.py:88-129 | in every run no lease is twice in the idle list, idle and recorded, recorded by two sessions, or carried by a coroutine that acquires or destroys and anywhere else |
| LeaseTheorems.NoLeaseIsLost | skill-runner/executor/k8s.py:252-272 | every lease a spawn of the run returned is idle, recorded, carried by one coroutine, or handed to deletion |
| LeaseTheorems.TokensResolveToHolders | skill-runner/llm_proxy.py:34-67 | a pool token never resolves to anyone but the session that records its lease, and then to that session's user; idle tokens are unbound |
| LeaseTheorems.SingleRelease | skill-runner/app.py:315-346 | with a pool: over all destroys of a session its lease, or the pod of a failed create by name, is released at most once, and `store.end` finds the session at most once |
| EphemeralPods.SingleRelease | skill-runner/executor/k8s.py:244-250 | without a pool: over all destroys of a session its pod is taken by name at most once, and `store.end` finds the session at most once |
| EphemeralPods.ReturnedMeansEnded | skill-runner/app.py:315-346 | one step, without a pool: a teardown that returned without raising left the session out of the store |
| EphemeralPods.EndedForGood | skill-runner/session_store.py:45-56 | without a pool: a session out of the store stays out |
| EphemeralPods.StrandedExactly | skill-runner/executor/k8s.py:126-157 | without a pool: an ended session keeps a pod that nobody has asked to delete if and only if the pod was made after the end, and since then the create has not failed and no teardown took it |
| EphemeralPods.SomePodIsStranded | skill-runner/executor/k8s.py:126-157 | without a pool: a run that ends the session while its pod is being made and leaves it with a ready pod, which DELETE does not touch |
| EphemeralPods.StepStatus | skill-runner/app.py:139-154 | one step, without a pool: which step makes a session ready, in error or done, and takes it out of the store |
| EphemeralPods.StepToken | skill-runner/executor/k8s.py:126-157 | one step, without a pool: when the token resolves, which pod is recorded, and when its deletion is awaited |
| LeaseTheorems.EndedForGood | skill-runner/session_store.py:45-56 | once DELETE, beacon or reaper returned, the session is out of the store in every continuation |
| LeaseTheorems.SessionsStay | skill-runner/session_store.py:18-47 | a session out of the store never comes back |
| LeaseTheorems.SessionsBounded | skill-runner/app.py:74-79 | counting and inserting without an await keeps the store within its limit in every run |
| LeaseTheorems.IdleBounded | skill-runner/executor/pod_pool.py:72-129 | with at most W `warm` calls at once, idle leases plus pending warm spawns never exceed max_idle + W |
| LeaseTheorems.MaxIdleExactly | skill-runner/executor/pod_pool.py:72-75 | the idle list stays within max_idle in a run if and only if no `warm` spawn returns onto a full list |
| LeaseOverfill.IdleBoundAttained | skill-runner/executor/pod_pool.py:124-129 | for every W from one and every pool with slots enough, a run that reaches max_idle + W |
| LeaseWitnesses.OverlapUnbindsAHeldLease | skill-runner/executor/k8s.py:170-175 | a run in which a late failing create unbinds and deletes the pod another session holds |
| LeaseTokens.StepResolvesExactly | skill-runner/executor/k8s.py:168-175 | a step breaks a held token's binding if and only if it is a create giving up a lease that another session records |
| LeaseTokens.HeldTokensResolve | skill-runner/executor/k8s.py:159-175 | in every run held tokens resolve to their holders throughout if and only if there is no such step |
| LeaseSharing.StepSharesExactly | skill-runner/executor/k8s.py:159-169 | a step puts two sessions on one pod if and only if it binds a lease that another create still provisions |
| LeaseSharing.PodsSharedExactly | skill-runner/executor/k8s.py:159-169 | in every run no two sessions are ever on one pod if and only if there is no such step |
| LeaseSharing.RobberyNeedsSharing | skill-runner/executor/k8s.py:170-175 | a failing create gives up another session's lease only while the two are on one pod |
| LeaseSharing.CalmRunsShareNothing | skill-runner/executor/k8s.py:159-169 | if destroys start only after their create returned, a create that provisions is always the holder's |
| LeaseSharing.SomePodIsShared | skill-runner/executor/k8s.py:159-169 | a run after which one session records the pod that another one's create provisions |
| LeaseStranded.StepStrands | skill-runner/executor/k8s.py:159-169 | how one step strands a pod on an ended session, or frees it |
| LeaseStranded.StrandedExactly | skill-runner/executor/k8s.py:159-169 | in every run an ended session holds a lease if and only if its create bound it after the end and nothing freed it since |
| LeaseStranded.DeleteLeavesStranded | skill-runner/app.py:316-343 | one step: DELETE and the beacon change nothing about such a session |
| LeaseStranded.SomePodIsStranded | skill-runner/app.py:315-343 | a run that ends a session during its spawn and leaves the pod on it |
| LeaseCalm.StepKeepsCalm | skill-runner/executor/k8s.py:238-272 | if destroys start only after their create returned, every step keeps held tokens bound and deleted pods out of use |
| LeaseCalm.TokenBindingExact | skill-runner/llm_proxy.py:59-67 | in such runs a pool token resolves to a session if and only if the session holds the lease |
| LeaseCalm.NothingHeldAfterEnd | skill-runner/executor/k8s.py:252-272 | in such runs an ended session holds no pod and no deleted pod is idle, held or about to be |
| LeaseFates.StepCirculates | skill-runner/executor/pod_pool.py:88-129 | a step takes a lease out of circulation exactly if it gives the pod up: too old, dead, not provisioned, not reset, or no room |
| LeaseFates.DiscardedForGood | skill-runner/executor/k8s.py:252-272 | a pod that was given up is handed to deletion and in no continuation idle, on a record or carried |
| LeaseFates.FailedResetNeverReused | skill-runner/executor/k8s.py:262-272 | in particular a pod whose reset failed is never handed to anybody again |
| LeaseFates.CirculationExact | skill-runner/executor/pod_pool.py:60-129 | in every run the leases in circulation are those a spawn returned and no step gave up |
| LeaseSteps.StepIdle | skill-runner/executor/pod_pool.py:72-129 | the idle list is a stack: only a healthy return with room and a `warm` spawn push, only a round in time pops |
| LeaseSteps.HealthyResetIsPooled | skill-runner/executor/pod_pool.py:124-129 | a healthy pod with room is the last idle one, and its session is over |
| LeaseSteps.StepDeletes | skill-runner/executor/k8s.py:168-272 | which steps ask for the deletion of which pod |
| LeaseSteps.StepStatus | skill-runner/app.py:139-154 | ready exactly by a provisioning that succeeded, in error by a create that failed, done by the reaper or at the end |
| LeaseSteps.StepStores | skill-runner/app.py:315-343 | a session leaves the store exactly when a teardown got to its end; a deletion that raised towards DELETE does not |
| LeaseSteps.SessionBegins | skill-runner/app.py:74-136 | a session begins starting, in the store, with nothing on its record |
| LeaseSteps.RoundGoesOn | skill-runner/executor/pod_pool.py:98-120 | with nothing idle a pod is spawned, however late; else lateness fails the create, and the last lease is deleted or probed |
| LeaseSteps.BindGoesOn | skill-runner/executor/k8s.py:159-168 | the acquired lease is recorded and its token names the session and its user |
| LeaseSteps.FailureGoesOn | skill-runner/executor/k8s.py:168-175 | a dead pod is deleted before the next round, a failed provisioning clears record and token |
| LeaseSteps.DestroyTakes | skill-runner/executor/k8s.py:238-262 | a destroy takes the lease and unbinds its token, or the name and every token of the session |
| LeaseSteps.EndWaits | skill-runner/app.py:315-326 | DELETE of an unknown session changes nothing; a running turn is waited for first |
| LeaseSteps.WarmGoesOn | skill-runner/executor/pod_pool.py:72-75 | `warm` spawns on exactly while the list is shorter than the pool size |
| EventLoop.ControlPlane.CreateSession | skill-runner/app.py:74-136 | refuses at the limit, else stores the session and schedules its create |
| EventLoop.ControlPlane.AcquireRound | skill-runner/executor/pod_pool.py:98-120 | one round of the acquire loop between awaits is its step of the machine |
| EventLoop.ControlPlane.ProbeReturns | skill-runner/executor/pod_pool.py:110-118 | a live lease is bound and recorded, a dead one handed to deletion |
| EventLoop.ControlPlane.SpawnReturns | skill-runner/executor/k8s.py:159-169 | a fresh lease is recorded on the session and its token bound before provisioning |
| EventLoop.ControlPlane.ProvisionReturns | skill-runner/executor/k8s.py:168-175 | success makes the session ready; failure clears the record, unbinds the token and deletes the pod |
| EventLoop.ControlPlane.EndStarts | skill-runner/app.py:315-343 | DELETE, beacon and the reaper up to their first await |
| EventLoop.ControlPlane.Destroy | skill-runner/executor/k8s.py:238-262 | the record is taken before the first await, by lease or by pod name |
| EventLoop.ControlPlane.ResetDone | skill-runner/executor/k8s.py:262-272 | a healthy pod with room is pooled and the session ends, any other is handed to deletion |
| EventLoop.ControlPlane.StoreEnd | skill-runner/session_store.py:45-51 | the store forgets the session once and marks it done |
| EventLoop.ControlPlane.WarmSpawnReturns | skill-runner/executor/pod_pool.py:72-75 | the spawned lease is appended and the length tested again |
| TurnTheorems.TurnsCounted | skill-runner/app.py:168-175 | in every run `turn_count` equals the accepted messages and never passes the limit |
| TurnTheorems.OneTurnAtATime | skill-runner/app.py:169-178 | until `end_session` is called at most one turn is live, with the reaper and late initialisation interleaved |
| TurnTheorems.SerialExactly | skill-runner/app.py:169-215 | turns are one at a time in a run if and only if no message is accepted between the taking of a running turn's entry and that turn's end |
| TurnTheorems.EndSessionLetsTurnsOverlap | skill-runner/app.py:315-326 | a run with two live turns after `end_session` popped the entry, the second then without an entry |
| TurnGrammar.EachTurnsEvents | skill-runner/app.py:191-215 | in every run what the queue carried of a turn is a prefix of the executor's events, redacted, then at most one error, then at most one done |
| TurnGrammar.DoneMissingOnlyIfFull | skill-runner/app.py:182-188 | one step: an ending turn's done, or a raised turn's error, is missing only if the queue was full, or the turn never began |
| TurnGrammar.TurnsSpeakInOrder | skill-runner/app.py:171-173 | until `end_session` the turns' events on the queue are never interleaved |
| TurnServer.Session.SendMessage | skill-runner/app.py:157-180 | each code exactly under its condition, in the order of the checks; an accepted message starts one turn |
| TurnReplies.StatusIsLast | skill-runner/app.py:139-180 | the status is what the last event that sets it made of it |
| TurnReplies.GoneIsNotFound | skill-runner/app.py:159-161 | 404 exactly once `store.end` took the session out |
| TurnReplies.StartingIsUnavailable | skill-runner/app.py:162-163 | 503 exactly until initialisation ends or the reaper comes |
| TurnReplies.EndedIsGone | skill-runner/app.py:164-165 | 410 exactly if a failed initialisation or the reaper set the status last |
| TurnReplies.OpenAnswers | skill-runner/app.py:166-173 | otherwise 400, 429, 409 or 200, by length, turns taken and the turn under way |
| TurnReplies.PutNeedsOnlyRoom | skill-runner/app.py:196-203 | a produced event goes on the queue as soon as there is room |
| TurnServer.Session.BeginTurn | skill-runner/app.py:191-195 | a turn of a forgotten session ends at once and leaves the entry |
| TurnServer.Session.OnEvent | skill-runner/app.py:196 | the event waits for a place in the queue |
| TurnServer.Session.OnCancelled | skill-runner/app.py:213-215 | a turn cancelled before it began leaves nothing, a later one offers done |
| TurnServer.Session.EmitTerminal | skill-runner/app.py:182-188 | the event is queued exactly if there is room |
| TurnServer.Session.FinishTurn | skill-runner/app.py:213-215 | the entry goes, whichever turn it names, and done is offered |
| TurnServer.Session.OnPut | skill-runner/app.py:196-209 | a timely put delivers the redacted event, a late one ends the turn |
| TurnServer.Session.OnEventsOver | skill-runner/app.py:210-215 | an executor that raised leaves an error before done |
| TurnServer.Session.PopDrive | skill-runner/app.py:319-326 | the entry is taken; only a turn still running is cancelled and waited for |
| Calendar.DateTextInjective | skill-runner/llm_proxy.py:70-71 | no two UTC days share a date text |
| Calendar.CivilCounts | skill-runner/llm_proxy.py:70-71 | the n-th day is the date to which the Gregorian rule counts n days |
| Calendar.DateTextReads | skill-runner/llm_proxy.py:70-71 | a date text reads year, month and day |
| BudgetEquivalence.KeyInjective | skill-runner/llm_proxy.py:125-127 | no two (user, day) pairs share a Redis key, whatever is in the user name |
| BudgetEquivalence.LiveWithinItsDay | skill-runner/llm_proxy.py:119-146 | one key: the TTL set on first write cannot expire a key within its own day, a command's delay included |
| BudgetEdges.FirstWriteLivesADay | skill-runner/llm_proxy.py:119-149 | a key lives 25 hours from its first write, and no longer |
| BudgetEdges.LaterWritesKeepExpiry | skill-runner/llm_proxy.py:139-149 | one key: later writes add to the count and leave its expiry alone |
| BudgetEdges.StaleEntryGoes | skill-runner/llm_proxy.py:93-110 | an entry of another day is dropped by a check and replaced by an addition |
| BudgetEdges.NoLimitRefusesNothing | skill-runner/llm_proxy.py:87-137 | without a user or a positive limit no store refuses |
| BudgetEquivalence.LedgerHoldsWhatWasAdded | skill-runner/llm_proxy.py:81-110 | the ledger holds the positive amounts accepted for that user on that day |
| BudgetEquivalence.MemoryCallRefines | skill-runner/llm_proxy.py:93-110 | a memory check or add answers like the ledger and goes on refining it, also across midnight |
| BudgetEquivalence.RedisAddRefines | skill-runner/llm_proxy.py:139-149 | a Redis add refines the ledger, exactly while no command failed |
| BudgetEquivalence.StoresAnswerAlike | skill-runner/llm_proxy.py:87-149 | for every trace with non-decreasing days and no Redis errors both stores answer identically, and like the ledger |
| BudgetEquivalence.ErrorsNeverRefuse | skill-runner/llm_proxy.py:129-149 | whatever commands fail, Redis never refuses a call the ledger would allow |
| BudgetStores.MemoryUserBudgetStore.Check | skill-runner/llm_proxy.py:93-100 | answers whether the ledger's count for that user and day is below the limit, and drops a stale entry |
| BudgetStores.MemoryUserBudgetStore.Add | skill-runner/llm_proxy.py:102-110 | the ledger gains a positive amount for that user and day |
| BudgetStores.RedisUserBudgetStore.Check | skill-runner/llm_proxy.py:129-137 | never refuses what the ledger allows, and answers like the ledger while no command failed |
| BudgetStores.RedisUserBudgetStore.Add | skill-runner/llm_proxy.py:139-149 | the keys go on refining the ledger, exactly while no command failed; the TTL is set only on the first write |
| ProxyGate.PermitsConserved | skill-runner/llm_proxy.py:322-331 | in every run free and held permits make up the limit, no call releases twice, open responses belong to holders |
| ProxyGate.PermitsReturnExactly | skill-runner/llm_proxy.py:322-331 | with no call live, free permits and those lost with abandoned calls make up the limit, and all are free if and only if no call was abandoned while holding one |
| ProxyGate.FinishedCallsReleasedOnce | skill-runner/llm_proxy.py:344-418 | a call whose relay finished or whose second send failed released exactly once; a call turned away never held a permit |
| ProxyBudget.OvershootBound | skill-runner/llm_proxy.py:296-302 | with at most K calls committed (read below the limit and not accounted, or asking about a day that is over), M tokens a call and F failed checks in the run, no day ends above limit - 1 + (K + F)*M |
| ProxyBudget.MidnightStep | skill-runner/llm_proxy.py:419-422 | at midnight the old day can grow only by what is already owed to it |
| ProxyOvershoot.OvershootAttained | skill-runner/llm_proxy.py:296-302 | the bound is attained for every limit, K and M from one up, and every F |
| ProxyPrompt.PromptOvershootBound | skill-runner/llm_proxy.py:93-110 | if every check is answered before anything else happens, as in the memory store, K admitted and unaccounted calls keep every day within limit - 1 + K*M |
| ProxyTransit.OneAnswerInTransit | skill-runner/llm_proxy.py:129-137 | with Redis they do not: for every limit, one call in flight at a time and no midnight, a day reaches limit - 1 + 2*M |
| ProxyTransit.AnswersInTransitUnbounded | skill-runner/llm_proxy.py:129-137 | with many answers in transit, one call in flight at a time, a day reaches any multiple of M whatever the limit |
| ProxyTransit.LateReadsUnbounded | skill-runner/llm_proxy.py:125-137 | counting the answers in transit too, checks read after midnight under the old day's key still have no bound |
| ProxyServer.LlmProxy.ReadCounter | skill-runner/llm_proxy.py:129-137 | the store reads the counter of the day asked about, and whether it is below the limit is settled then |
| ProxyServer.LlmProxy.AfterCheck | skill-runner/llm_proxy.py:296-302 | 429 exactly when the check was answered and what it had read had reached the limit, whatever was added since |
| ProxyServer.LlmProxy.Start | skill-runner/llm_proxy.py:291-298 | 401 without a token that resolves; without a user there is no check; else the key of the current day is asked |
| ProxyServer.LlmProxy.AfterAcquire | skill-runner/llm_proxy.py:322-325 | the call holds one permit, if there is a semaphore |
| ProxyServer.LlmProxy.ReleaseSem | skill-runner/llm_proxy.py:325-331 | the first use gives the permit back, later uses do nothing |
| ProxyServer.LlmProxy.AfterSend | skill-runner/llm_proxy.py:346-373 | one retry; the second failure releases and ends the call |
| ProxyCalls.GivenUpAfterTwo | skill-runner/llm_proxy.py:346-373 | in every run a call is given up exactly when two of its sends have failed, and there is no third |
| ProxyCalls.UnlimitedNeverDenied | skill-runner/llm_proxy.py:296-302 | in no run is a call denied that has no user, or any where there is no limit |
| ProxyServer.LlmProxy.AfterRelay | skill-runner/llm_proxy.py:384-417 | the relay's usage is kept while the response is being closed |
| ProxyServer.LlmProxy.AfterClose | skill-runner/llm_proxy.py:414-424 | the permit goes back, once, before the accounting, which is filed under the day of that moment |
| ProxyServer.LlmProxy.AfterAccounting | skill-runner/llm_proxy.py:419-425 | the tokens are added under the day the call wrote down |
| UsageScanner.LinesOfConcat | skill-runner/llm_proxy.py:387-390 | cutting a stream in two and carrying the unfinished line over finds the same lines |
| UsageScanner.DrainLines | skill-runner/llm_proxy.py:389-400 | the inner loop counts every finished line in the buffer and leaves the unfinished one |
| UsageScanner.RelayAndCount | skill-runner/llm_proxy.py:379-413 | all chunks are forwarded in order, and the count is that of the finished lines of their concatenation, or of the loaded body; a chunk in hand when the caller goes away is not counted |
| UsageScanner.ChunkingIndependent | skill-runner/llm_proxy.py:384-400 | any two splits of a byte stream give the same count, flag and leftover buffer |
| UsageScanner.ExtractTotalTokens | skill-runner/llm_proxy.py:196-221 | the greatest total of the body itself and of every line, the unfinished one included, and never below zero |
| UsageLaws.StripIs | skill-runner/llm_proxy.py:387-390 | stripping takes the six ASCII white-space bytes off both ends and nothing else |
| UsageLaws.LinesAreSplit | skill-runner/llm_proxy.py:387-390 | the lines, joined by line feeds, are the body again, and none contains one |
| UsageLaws.ExtractedIsGreatest | skill-runner/llm_proxy.py:196-221 | the extractor returns the greatest total that the body itself, if an object, or one of its `data: ` lines reports, and never less than 0 |
| UsageLaws.ObjectBodyCounts | skill-runner/llm_proxy.py:205-207 | a plain JSON body counts for what it reports |
| UsageLaws.ScanIsLastReport | skill-runner/llm_proxy.py:391-400 | the scanner ends with the total of the last line that reports one, and no flag if none does |
| UsageLaws.FinalIs | skill-runner/llm_proxy.py:401-408 | a body the client had loaded at once counts for no less than anything it reports |
| UsageLaws.ReadersAgreeExactly | skill-runner/llm_proxy.py:196-221 | on any body the two readers agree if and only if the scanner's count is not negative and nothing reported exceeds it |
| UsageAgreement.ScanKeepsLast | skill-runner/llm_proxy.py:391-400 | the scanner ends with the last total of the lines, and its flag says whether there was one |
| UsageAgreement.ExtractorsAgreeExactly | skill-runner/llm_proxy.py:196-221 | on a newline-terminated body that is no object the two agree if and only if no total exceeds the last and the last is not negative |
| UsageAgreement.ExtractorsAgreeOnGrowingTotals | skill-runner/llm_proxy.py:379-400 | they agree on totals that never decrease, however the body is cut into chunks |
| UsageAgreement.ExtractorsDiffer | skill-runner/llm_proxy.py:391-400 | on two lines with a falling total the scanner counts the last and the extractor the first |
| UsageAgreement.SomeBodyIsCountedTwice | skill-runner/llm_proxy.py:196-221 | a reader and a body on which the two counts are 1 and 2 |
| Trees.CleanNameExtracts | cli/cli_core/plugin.py:1110-1142 | a clean path written as an entry name passes the safety test and is extracted as itself |
| TreeLaws.StripIs | cli/cli_core/plugin.py:937 | stripping takes Unicode white space off both ends and nothing else |
| TreeLaws.SafeNameExactly | cli/cli_core/plugin.py:1110-1142 | a name is let through exactly if it is not empty, has no NUL, is not absolute, names no drive and never climbs out |
| TreeLaws.TargetJoins | cli/cli_core/plugin.py:1142 | where a joined name lands is where its parts do, one below the other |
| TreeLaws.TargetOfOne | cli/cli_core/plugin.py:1142 | empty components and dots stand for nothing |
| TreeLaws.ExtractsExactly | cli/cli_core/plugin.py:1110-1142 | an archive extracts exactly if all names are let through, and of entries with one target the last stays |
| TreeLaws.PrefixIs | cli/cli_core/plugin.py:937 | spaces and slashes around a prefix make no difference |
| BundleArchive.BundleExtracts | cli/cli_core/plugin.py:928-962 | the entries of a listed tree, after single files, extract to exactly its kept files and those files |
| BundleLayout.BundleWorkspace | cli/cli_core/plugin.py:278-313 | the bundle a pack produces is found to be a nested workspace with the same slug and kind |
| BundleLayout.BundleRoot | cli/cli_core/plugin.py:1145-1169 | the plugin root of the extracted archive is its top directory |
| BundlePack.ValidSkillFacts | cli/cli_core/plugin.py:727-822 | what an empty list of validation errors says about slug, names and version |
| BundleWitness.FlatSkillIsValid | cli/cli_core/plugin.py:727-822 | without a plugin.yaml, a root SKILL.md with name, description and roles in order is all a skill needs |
| BundleWitness.FlatSkillWithYamlIsValid | cli/cli_core/plugin.py:727-822 | with one in order, the declared runtime alone decides whether roles are asked for |
| BundlePack.PackExtracts | cli/cli_core/plugin.py:825-914 | a valid skill packs, and the archive extracts to its kept files with the root's README beside, for both layouts |
| BundleFilter.KeptExactly | cli/cli_core/plugin.py:31-43 | a file is kept exactly if no name on its path is a skipped directory or ends in .egg-info, and it is no compiled Python file and not .DS_Store |
| BundleFilter.EntriesExactly | cli/cli_core/plugin.py:928-962 | of a listed tree exactly the kept files not asked to be skipped have an entry, with their content, below the prefix |
| BundleFilter.PackedEntries | cli/cli_core/plugin.py:894-914 | a skill's archive holds the README and the kept files of the skill directory, below the slug, and the version if plugin.yaml declares one |
| BundleRules.NameExactly | cli/cli_core/plugin.py:199-208 | a name is at most 64 characters of words of a-z0-9 joined by single hyphens |
| BundleRules.VersionExactly | cli/cli_core/schemas/plugin.py:64-70 | a version is three numbers joined by dots, or seven hexadecimal digits |
| BundleRules.RolesExactly | cli/cli_core/plugin.py:74-102 | roles are in order if there are two at least, each with an id, and no id twice |
| BundleRules.FrontmatterTells | cli/cli_core/plugin.py:234-262 | which complaint about name and description is made when |
| BundleRules.YamlExactly | cli/cli_core/plugin.py:1421-1468 | a plugin.yaml is in order exactly if type, name, version, texts, author and tags are |
| BundleRules.YamlTells | cli/cli_core/plugin.py:1421-1468 | which complaint about type, name and version is made when |
| BundleRules.FlatSkillExactly | cli/cli_core/plugin.py:727-822 | a directory with a SKILL.md at its root and no plugin.yaml is a valid skill exactly if name, description and, for a swarm, roles are in order |
| BundleRules.NestedSkillExactly | cli/cli_core/plugin.py:278-313 | one with a single child that has it, exactly if besides the name is the child's own, unless that is no slug |
| BundleRules.FlatSkillWithYamlExactly | cli/cli_core/plugin.py:727-822 | with a plugin.yaml, exactly if that is in order, declares the same name, and the type it declares has its roles |
| BundleRules.LayoutTells | cli/cli_core/plugin.py:355-381 | the only visible child with a SKILL.md is checked even beside one at the root; of several none is |
| BundleRules.BrokenLayoutTells | cli/cli_core/plugin.py:411-431 | a layout that is no workspace still shows its type by its only child |
| BundleInstall.PackedIsValid | cli/cli_core/plugin.py:825-836 | nothing is packed that does not validate |
| BundleInstall.NamedAfter | cli/cli_core/plugin.py:850-878 | what the archive is called after, and the errors |
| BundleInstall.UntypedNeedsBoth | cli/cli_core/plugin.py:767-772 | without a type and a skill layout, plugin.yaml and README.md are asked for |
| BundleInstall.LegacyIsInvalid | cli/cli_core/plugin.py:762-766 | a type that is no agent asset any more is never in order |
| BundleAsset.AssetExtracts | cli/cli_core/plugin.py:917-925 | an agent asset's archive extracts to its kept files without the README, below name and version |
| BundleTrip.PackInstallTrip | cli/cli_core/plugin.py:1265-1299 | installing the packed archive leaves exactly the kept files under the slug if the kind of SKILL.md holds, and otherwise fails with the role error |
| BundleAsset.AssetTrip | cli/cli_core/plugin.py:1265-1315 | packing and installing an agent asset without a SKILL.md at its root gives its shipped files under its name exactly if they are found and validate again |
| BundleInstall.InstalledIsValid | cli/cli_core/plugin.py:1265-1299 | nothing installs unless every entry name is safe, a bundle is found and it validates |
| BundleInstall.SkillInstalls | cli/cli_core/plugin.py:1265-1299 | any archive of a valid skill installs under its slug the directory its layout or its plugin.yaml shows |
| BundleInstall.DeclaredNameResolves | cli/cli_core/plugin.py:1172-1204 | with a plugin.yaml the declared name picks the directory, and a layout that shows another name is refused |
| BundleInstall.RootIsWorkspace | cli/cli_core/plugin.py:1145-1151 | the bundle is the archive's root or its only visible top directory, if that is a skill |
| BundleInstall.RootHasYaml | cli/cli_core/plugin.py:1153-1169 | else the directory of the only plugin.yaml, and with none or several there is none |
| BundleWitness.SomeSkillTrips | cli/cli_core/plugin.py:981-1077 | a concrete skill that packs and installs, is published and installs the same files, and is published again unchanged |
| BundleWitness.SomeSkillPacksButDoesNotInstall | cli/cli_core/plugin.py:1265-1299 | a concrete valid skill, declared `skill` with a swarm SKILL.md without roles, whose archive is refused |
| BundlePublish.SynthesizedValid | cli/cli_core/plugin.py:446-482 | the plugin.yaml made up for publishing passes its own validation |
| BundlePublish.PublishCarried | cli/cli_core/plugin.py:981-1077 | an archive of a skill, with or without a plugin.yaml declaring skill or swarmskill, is published exactly when the roles asked for are in order, with these entries |
| BundleYaml.PublishedYaml | cli/cli_core/plugin.py:446-482 | for any archive: the published plugin.yaml has the slug, the version asked for, the stripped texts of SKILL.md or their defaults, and its tags; a given one is kept but for the type |
| BundleYaml.RepackHolds | cli/cli_core/plugin.py:1054-1077 | beside it are the README and the kept files of the skill directory, below that directory's name |
| BundleYaml.PublishNeedsVersion | cli/cli_core/plugin.py:1031-1034 | a skill without a plugin.yaml is not published without a version |
| BundleYaml.OthersPublishedAsTheyAre | cli/cli_core/plugin.py:1003-1027 | anything else is published as it is, or refused where a skill is expected |
| BundleYaml.PublishedIsValid | cli/cli_core/plugin.py:998-1020 | nothing is published that does not validate, a missing plugin.yaml or README aside where a skill is expected |
| BundlePublish.PublishedInstalls | cli/cli_core/plugin.py:981-1077 | what is published then installs the skill's files under its name |
| BundlePublish.PublishPreserves | cli/cli_core/plugin.py:981-1077 | a packed archive is published exactly when it installs, and the published one installs the same files |
| BundlePublish.PublishIdempotent | cli/cli_core/plugin.py:981-1077 | normalising a normalised archive gives the same entries again, for any version asked for |
| BundlePublish.PackedPublishIdempotent | cli/cli_core/plugin.py:981-1077 | the same for every archive that `plugin_pack` makes of a valid skill |
| BundlePublish.ListingOrderIrrelevant | cli/cli_core/plugin.py:943-961 | the entries do not depend on the order in which a tree is listed |
| BundleTools.ZipFile.WriteDirectoryTree | cli/cli_core/plugin.py:928-962 | the loop appends the entries of the kept files not skipped, in listing order, and counts them |
| BundleTools.FindSkillSubdirectory | cli/cli_core/plugin.py:265-275 | the one visible child directory with a SKILL.md, if there is exactly one |
| BundleTools.Destination.InstallSkill | cli/cli_core/plugin.py:1220-1237 | the whole staged directory replaces the old one only by force; the errors and their order |
| Keepalive.NothingLostOrReordered | skill-runner/worker/app.py:182-220 | under every interleaving the lines sent without keepalives, then the queue, are what the executor produced so far |
| Keepalive.CompletedStreamIsTheTurn | skill-runner/worker/app.py:189-217 | a completed stream carried the executor's events in order, and one failure exactly if it raised |
| Keepalive.OneKeepaliveForEachTimeout | skill-runner/worker/app.py:202-212 | in every run each timeout sends one keepalive and nothing else does |
| Keepalive.TurnStream.OnEvent | skill-runner/worker/app.py:189-192 | an event goes on the queue |
| Keepalive.TurnStream.OnEventsOver | skill-runner/worker/app.py:193-199 | a failure, if the executor raised, and then the end mark |
| Keepalive.TurnStream.Round | skill-runner/worker/app.py:202-217 | a timeout emits a keepalive, an item is emitted, the end mark ends the loop, and then all output has been sent |
| MemberNames.NormalizeMemberName | skill-runner/executor/local.py:439-450 | the first free candidate, letter-initial, found after at most as many failures as there are names in use |
| MemberNames.Pigeonhole | skill-runner/executor/local.py:446-449 | distinct decimal suffixes cannot all be taken by fewer names |
| MemberNames.DecimalInjective | skill-runner/executor/local.py:448 | two numbers with the same decimal text are equal |
| MemberNames.CollapseIs | skill-runner/executor/local.py:440 | word characters stay, each run of others becomes one underscore |
| MemberNames.BaseIs | skill-runner/executor/local.py:440-444 | underscores at the ends go, an empty name is a teammate's, a leading digit a role's |
| MemberNames.DecimalReads | skill-runner/executor/local.py:448 | the suffix says its number |
| MemberNames.FirstTries | skill-runner/executor/local.py:445-448 | the base itself is tried first, then numbers from two; the reserved names |
| MemberNames.BuildMembers | skill-runner/executor/local.py:414-436 | the names are pairwise distinct, letter-initial, disjoint from the reserved ones, each the first free one for its role |
| GitSources.FoldOfTier | frontend/src/utils/gitSourceDisplay.ts:108-119 | the health-rank filter does not change what the fold keeps |
| GitSources.BestIsEarliestBest | frontend/src/utils/gitSourceDisplay.ts:77-87 | a group shows its earliest source that is greatest by health, update and creation time |
| GitSources.EarliestBestUnique | frontend/src/utils/gitSourceDisplay.ts:77-87 | a group has only one such source |
| GitSources.BestBeatsAll | frontend/src/utils/gitSourceDisplay.ts:68-87 | nothing in a group is healthier than the source shown, or as healthy and later updated or, updated at once, later created |
| GitSources.KeyTells | frontend/src/utils/gitSourceDisplay.ts:89-93 | sources are one if their given keys are, or their repository, ref (`main` by default) and subpath |
| GitSources.KeysDistinct | frontend/src/utils/gitSourceDisplay.ts:100-106 | no key of the map is listed twice |
| GitSources.KeyHasGroup | frontend/src/utils/gitSourceDisplay.ts:100-106 | the keys are exactly those some source has |
| GitSources.OneForEachKey | frontend/src/utils/gitSourceDisplay.ts:99-121 | one source for each key, in first-occurrence order of the keys |
| GitSources.DedupIdempotent | frontend/src/utils/gitSourceDisplay.ts:99-121 | deduplicating a deduplicated list changes nothing |
| GitSources.Dedupe | frontend/src/utils/gitSourceDisplay.ts:99-121 | the loops over the map of groups compute that list |

## Left out

- HTTP, the Kubernetes API, Redis networking, compression, temporary directories and workspaces on disk: each is an
  outcome chosen by the environment, or a map operation.
- Aliasing of session objects in the control plane: sessions are values in a map that outlives their store entry, so two
  coroutines that hold one object share one map entry.
- The worker's own token and the pods' environment; the mode without a pool is modelled for one session, since its
  sessions share nothing but the store.
- Puts on the event queue by initialisation, teardown and the usage events of the proxy: the turn model has them as
  puts of other items at any moment; a queue put that waits is a step that is not enabled while the queue is full.
- `PodPoolManager.shutdown` interleaved with other coroutines, and pods created by a spawn that then failed: the model
  does not know a pod before its lease.
- Clock readings of an `acquire` that is interleaved: each round is told whether it is late and whether the lease is
  short-lived. Alone, `PodPoolManager.Acquire` reads the clocks itself.
- A message's and an error's text; redaction is a parameter that is assumed not to raise.
- The race of asyncio's `wait_for` between a timeout and the same moment's result, and a cancellation swallowed by the
  executor other than by going on.
- Asyncio's order of wake-ups: any suspended coroutine may run next, and a free permit may go to any waiting call.
- The session token totals and the usage events of the proxy, its headers, and the check of the upstream key; a call
  refused after its admission is a step of its own.
- JSON: a parameter that gives the total of a document or none. A total that makes `int` overflow, which the scanner
  does not catch, is not modelled.
- Redis and the proxy read one clock, in whole seconds, and an answered read or increment takes effect within the
  two-second operation timeout.
- Errors of validation are a set without texts or order; YAML, frontmatter parsing and the checks of agent assets are
  parameters, and `BundlePublish` assumes of the one plugin.yaml that is written that loading it gives it back. Fields
  of plugin.yaml that are not validated are not in the model.
- Sorting of the directory listing: any listing without repetitions, which is more general.
- Symbolic links, names with backslashes or a NUL, case-insensitive file systems, and archives in which one entry is
  both a file and a directory; the output directory inside the packed tree unless ignored.
- Archives supplied by users whose root has no directory: their name comes from the staging area.
- Python's `lower` and `strip` on names, the trimming, lower-casing and URL normalising of Git sources: parameters.
- Display names, personas and prompts of team members, and Git source fields that do not take part in the choice.
- `marketplace`, the React pages, prompt building and the agent runtime: no protocol or transformation of their own.
