# InfraGraph in Dafny

InfraGraph turns signed inventory snapshots into canonical assets, attribute claims and a
dependency graph. This project models the parts of it whose correctness spans many steps, and
proves what holds of every input, every run or every reachable state.

| files | what they model |
|---|---|
| `Collections`, `Domain`, `Resolution`, `Tables`, `Reconcile` | snapshots, strong identities, the relational tables, and one persistent reconciliation as functions of the tables |
| `ReconcileInvariants`, `ReconcileSteps`, `ReconcileRuns` | invariants of the tables, kept by each statement, each snapshot and each run |
| `Components`, `ClaimHistory`, `ReconcileSummary`, `ReconcileMentions`, `ReconcileResolving`, `ReconcileReturns`, `ReconcileChanges`, `ReconcileWitness`, `Contract`, `ContractLimits`, `ContractWitness` | assets as connected components, claims as latest statements, what the summary counts and where it misleads, what can be rejected |
| `ReconcileStore` | the same reconciliation as a class that updates its tables in place |
| `Effective`, `InMemory`, `InMemoryConflicts`, `InMemoryStore`, `InMemoryRuns` | effective attributes and in-memory reconciliation, with loops over Go maps in arbitrary order |
| `InMemoryHistory`, `InMemoryStatus`, `InMemorySummary`, `InMemoryChanges`, `InMemoryTimes` | what any run of deliveries leaves in memory, and what each delivery reports, in terms of the deliveries |
| `Graph`, `Traversal` | bounded breadth-first search over an edge list and by one query per level |
| `Delivery`, `DeliveryReplays`, `DeliveryCollisions`, `CollectorFiles` | sequence file, spool, retries and ingest as a state machine with crashes and losses |
| `Audit`, `AuditPayload`, `AuditIdeal`, `Limiter`, `JsonDepth` | the audit hash chain, the rate limiter and the JSON nesting scanner |

Assumptions, all visible in the definitions:

- Snapshots are reconciled one after the other, each in one transaction. The program locks per
  connector only (`internal/app/app.go:673`), so two connectors that share an asset are serialised
  here and not there.
- Runs start from empty tables. An attempt that fails leaves the tables as they were; runs include
  any number of failed attempts.
- Digests are injective. Row identifiers that are hashes of their parts are constructor terms.
- In-memory keys joined with `|` are constructor terms, so organization and connector identifiers
  are taken not to contain `|`. Asset identifiers made by `safe` are not assumed to be injective.
- Strings are byte strings and integers are unbounded. Time 0 is the zero time.
- In the delivery protocol a collector can read its sequence file; an unreadable one counts as zero
  and the next number is then only as large as the clock.
- The database takes every text that the snapshot contract takes. PostgreSQL refuses texts with a zero
  byte and index entries of unbounded size, and the contract bounds neither hint values nor bytes.
- Audit rows are read back with an empty text where the table holds no value, and their payload as a
  map, which is encoded in the order of its keys.
- SQL bulk updates are maps over the rows. Rows come back, and Go maps iterate, in any order.

Nine properties that one might expect turn out not to hold. Each comes with a run that shows it and
the exact condition under which it does hold, stated on what is there before the call:

- An asset that comes back does not always get an ASSET_RETURNED row (`ReturnGoesUnrecorded`,
  `ReturnedRowIff`).
- The missing counter counts identities and not assets (`MissingCounterExceeds`, `MissingCounterIff`).
- The change counter can exceed the rows written (`ChangeCounterExceeds`, `ChangeCounterIff`).
- An appended audit event does not always verify: the hash covers nanoseconds and the payload as it
  was encoded, while the table keeps microseconds and gives the payload back with its keys in order
  (`RoundingBreaksChain`, `PayloadBreaksChain`, `AppendVerifiesIff`, `AppendsVerifyIff`). The event that
  ingest appends for a snapshot never verifies (`SnapshotEventBreaksChain`).
- A retry does not always succeed in the end: snapshot identifiers are made from the sequence number
  alone and are unique over all organizations (`CollisionHappens`, `AcceptedIffNoCollision`), and a
  collector whose snapshot collided is stuck for good (`CollisionIsPermanent`).
- Whether a snapshot is accepted depends on the order of its observations (`OrderDecides`,
  `RejectedIffJoins`).
- The changes of an in-memory reconciliation depend on the order in which Go visits the attributes
  (`OrderShows`, `OrdersAgreeIff`).
- In memory an asset can be MISSING although another connector still reports it
  (`MissingWhileReported`, `AssetStates`).
- A snapshot within all limits can be refused, because relationships are compared by a text that
  zero bytes make ambiguous (`ZeroBytesCollide`, `AcceptedIffWithin`).

## Model

| member | source | states |
|---|---|---|
| Resolution.CollectHints | internal/resolution/resolution.go:50-59 | the loop over the seven strong keys collects exactly the hints whose trimmed text is neither empty nor the nil text |
| Resolution.TrimDropsSpace | internal/resolution/resolution.go:53 | trimming drops white space from both ends of a text and nothing else |
| Resolution.StrongIdentityIgnoresPadding | internal/resolution/resolution.go:50-59 | padding a hint with white space never yields a different strong identity |
| Resolution.StrongIff | internal/resolution/resolution.go:50-59 | an identity is strong exactly under one of the seven named keys, with a hint whose trimmed text is its value and neither empty nor the nil text |
| ReconcileRuns.RunInv | internal/reconcile/postgres.go:20-309 | every state reached from empty tables by any attempts satisfies all table invariants, and every row belongs to a committed snapshot |
| ReconcileRuns.StoredStatus | internal/reconcile/postgres.go:79-106 | in every reachable state an asset is MISSING exactly when no source identity bound to it is ACTIVE, otherwise CONFLICTING exactly when two active claims disagree on an attribute, otherwise ACTIVE |
| ReconcileRuns.RelationshipStatus | internal/reconcile/postgres.go:179-215 | in every reachable state a relationship is ACTIVE exactly when some relationship source identity that points to it is ACTIVE |
| ReconcileRuns.RunExtends | internal/reconcile/postgres.go:105-158 | however a run continues, no row is deleted, no binding changes, no relationship source is retargeted and no claim changes except its active flag |
| ReconcileRuns.AbsenceCounters | internal/reconcile/postgres.go:227-231 | a source identity exists exactly when a committed snapshot listed it, its counter is the number of committed snapshots of its connector since the last listing, and it is MISSING exactly when the counter reached the threshold in force at some snapshot since then |
| ReconcileRuns.MissingAtThreshold | internal/reconcile/postgres.go:227-231 | under one configured threshold an identity is MISSING exactly when that many committed snapshots of its connector, or more, have followed the last one that lists it |
| ReconcileRuns.MissingByDefault | internal/reconcile/postgres.go:24-26 | when no positive threshold is configured, two such snapshots make it MISSING |
| ReconcileRuns.RelAbsenceCounters | internal/reconcile/postgres.go:265-269 | the same for relationship source identities and REMOVED, for changing thresholds |
| ReconcileRuns.RemovedAtThreshold | internal/reconcile/postgres.go:265-269 | under one configured threshold a relationship source identity is REMOVED exactly when that many committed snapshots of its connector, or more, have followed the last one that lists it |
| ReconcileRuns.RemovedByDefault | internal/reconcile/postgres.go:24-26 | when no positive threshold is configured, two such snapshots make it REMOVED |
| ReconcileInvariants.ObservePreserves | internal/reconcile/postgres.go:35-177 | an accepted observation keeps every table invariant |
| ReconcileInvariants.ClaimFrame | internal/reconcile/postgres.go:138-158 | after an observation a claim row is new, or an old row that at most lost its active flag, and rows on other assets are untouched |
| ReconcileInvariants.RelTargetStable | internal/reconcile/postgres.go:205-209 | the upsert that rewrites the target of a relationship source identity never changes it |
| ReconcileInvariants.ObserveRelPreserves | internal/reconcile/postgres.go:179-215 | an accepted relationship keeps every table invariant |
| ReconcileInvariants.MarkPreserves | internal/reconcile/postgres.go:226-263 | marking absent assets keeps every table invariant |
| ReconcileInvariants.MarkClaimFrame | internal/reconcile/postgres.go:245-248 | marking adds and drops no claim row and only clears active flags |
| ReconcileInvariants.MarkRelsPreserves | internal/reconcile/postgres.go:265-291 | marking absent relationships keeps every table invariant |
| ReconcileSteps.ApplyPreserves | internal/reconcile/postgres.go:20-224 | an accepted snapshot keeps every invariant, loses no row, changes no binding and adds exactly its own run row |
| ReconcileSteps.ApplySources | internal/reconcile/postgres.go:105-109 | what an accepted snapshot does to each source identity: listed ones are ACTIVE with counter zero, unlisted ones of the connector count one more absence and expire at the threshold, all others are untouched |
| ReconcileSteps.ApplyRelSources | internal/reconcile/postgres.go:205-209 | the same for each relationship source identity |
| Components.AssetsAreComponents | internal/reconcile/postgres.go:51-119 | in every reachable state two source identities have the same asset exactly when a chain of strong identity values shared by accepted observations joins them |
| Components.StrongValueJoins | internal/reconcile/postgres.go:110-119 | a strong identity value is bound to the asset of a source identity exactly when the two are connected |
| Components.EvidenceIff | internal/resolution/resolution.go:50-59 | a stored observation is evidence for a strong identity exactly when it has a hint under one of the seven strong keys, in its own organization, whose trimmed text is that value and neither empty nor the nil text |
| Components.NewSourceRooted | internal/reconcile/postgres.go:51-69 | an asset found through a strong value is joined to the observation by that value |
| Components.RunRooted | internal/reconcile/postgres.go:51-119 | in every reachable state every binding is explained by a chain of evidence from the identity the asset was created for |
| Components.EvidenceIsHistory | internal/reconcile/postgres.go:133-137 | in every reachable state the observation table, from which the evidence is read, has exactly the observations of the committed snapshots with their hints |
| ClaimHistory.ActiveClaims | internal/reconcile/postgres.go:138-158 | in every reachable state an active claim carries the identifier and value of its connector's latest accepted statement of the attribute for that asset, is the only active one there, and its connector has an ACTIVE identity on the asset |
| ClaimHistory.LatestActiveIff | internal/reconcile/postgres.go:138-158 | conversely, in every reachable state the latest accepted statement of an attribute has its claim row, which is active exactly when the connector had an ACTIVE identity on the asset after every committed snapshot from that statement on |
| ClaimHistory.ClaimSurvives | internal/reconcile/postgres.go:231-248 | an active claim survives an accepted snapshot exactly when the snapshot does not state its attribute again and its connector keeps an ACTIVE identity on the asset |
| ClaimHistory.ConflictIffDisagree | internal/reconcile/postgres.go:299-302 | after any number of observations the claims on an asset conflict exactly when two connectors hold different values for one of its attributes, each its last statement in the snapshot or else its active claim before it; the condition reads only the tables and the snapshot before the call |
| ReconcileSummary.SummaryIsExact | internal/reconcile/postgres.go:53-103 | for every accepted snapshot: each observation is counted once; the created counters are the rows added; the removed counter is the number of ACTIVE to REMOVED transitions; discovery rows are exactly the new assets and missing rows exactly the assets that became MISSING; at least as many changes are counted as rows written |
| ReconcileSummary.RemovedIsTransition | internal/reconcile/postgres.go:283-291 | the relationships that marking removes are exactly those that were ACTIVE before the snapshot and are REMOVED after it |
| ReconcileReturns.ReturnedRowIff | internal/reconcile/postgres.go:78-103 | a MISSING asset comes back exactly when the snapshot mentions it, and gets an ASSET_RETURNED row exactly when its first mention is by an identity the tables already know |
| ReconcileReturns.MissingCounterIff | internal/reconcile/postgres.go:256-262 | the missing counter is never less than the number of assets that became MISSING, and equals it exactly when no asset loses two expiring identities at once |
| ReconcileReturns.LastSourcesIff | internal/reconcile/postgres.go:231-262 | the identities counted as missing are exactly the expiring ones of assets whose ACTIVE identities all expire and which the snapshot does not mention |
| ReconcileReturns.OrphanedIff | internal/reconcile/postgres.go:252 | an asset is left without ACTIVE identities exactly when all of them expire and the snapshot does not mention it |
| ReconcileMentions.SeenIffMentioned | internal/reconcile/postgres.go:51-119 | whether an accepted snapshot observes an asset is decided before it: exactly when the tables bind the source identity or a strong identifier of some observation to the asset, and the first such observation is the first one of the asset |
| ReconcileResolving.LoopResolves | internal/reconcile/postgres.go:51-119 | every accepted observation is bound to the asset that the tables and the snapshot before the call predict: the one that its own candidates and the earlier observations with a common strong identifier lead to, or a new one if there are none |
| ReconcileResolving.CandidatesAreLeads | internal/reconcile/postgres.go:51-119 | the candidates that the loop finds for an observation are exactly the predicted ones |
| ReconcileChanges.ChangeRows | internal/reconcile/postgres.go:159-204 | decided before the call: SOURCE_CONFLICT rows are exactly the assets that some observation finds conflicting, RELATIONSHIP_ADDED rows exactly the assets that a new relationship leaves; the conflict counter counts the finding observations, the updated counter the ASSET_RETURNED rows, and the change counter is the sum of the others |
| ReconcileChanges.FoundConflictingIff | internal/reconcile/postgres.go:299-302 | the loop finds the asset of an observation conflicting exactly when, by the tables and the snapshot before the call, two connectors hold different values for an attribute of the asset it resolves to |
| ReconcileChanges.ChangeCounterIff | internal/reconcile/postgres.go:311-318 | the change counter is never less than the rows written, and equals them exactly when no asset loses two expiring identities, none is found conflicting twice, and no two new relationships leave one asset |
| ReconcileWitness.MissingCounterExceeds | internal/reconcile/postgres.go:256-262 | a run of two snapshots after which the missing counter is two and exactly one asset became MISSING |
| ReconcileWitness.ReturnGoesUnrecorded | internal/reconcile/postgres.go:78-83 | a run of three snapshots in which a MISSING asset comes back and no ASSET_RETURNED row is written |
| ReconcileWitness.ChangeCounterExceeds | internal/reconcile/postgres.go:198-204 | a snapshot with two new relationships from one asset: two are counted, one row is written |
| Contract.CheckAssets | internal/app/app.go:742-748 | the loop accepts exactly bounded observations with distinct external identifiers, and collects those identifiers |
| Contract.CheckRelationships | internal/app/app.go:749-756 | the loop accepts exactly bounded relationships between listed assets with distinct joined keys |
| Contract.CheckContract | internal/app/app.go:728-758 | validation accepts exactly the snapshots within the protocol limits |
| ContractLimits.AtTheLimits | internal/app/app.go:728-758 | a snapshot that reaches every limit at once is accepted |
| ContractLimits.AcceptedIffWithin | internal/app/app.go:728-758 | a snapshot is accepted exactly when it is within all limits, relates observed assets, repeats nothing, and its relationships have different texts |
| ContractLimits.TextsTellApart | internal/app/app.go:751 | different relationships have different texts unless an identifier holds a zero byte |
| ContractLimits.ZeroBytesCollide | internal/app/app.go:751 | with zero bytes they need not: a snapshot within all limits that is refused |
| Contract.ObserveRejectedIff | internal/reconcile/postgres.go:51-119 | a valid observation is rejected exactly when its source identity and strong identifiers point to two different assets |
| Contract.AssetsRejectedIff | internal/reconcile/postgres.go:35-177 | the observation loop over a valid snapshot fails exactly when some observation, as the loop reaches it, has candidates that disagree, and in no other way |
| Contract.RelationshipsAccepted | internal/reconcile/postgres.go:179-215 | the relationship loop over a valid snapshot never fails |
| Contract.RejectedIffJoins | internal/reconcile/postgres.go:20-224 | a new snapshot that satisfies the contract, with known asset types and bounded attribute keys, is rejected exactly when, by the tables and the snapshot before the call, an observation is evidence for two assets; every other failure is unreachable |
| ContractWitness.OrderDecides | internal/reconcile/postgres.go:55-67 | two snapshots with the same observations, of which one is accepted and the other rejected, because the observation that joins two strong identifiers comes first or last |
| ReconcileStore.Store.constructor | internal/database/migrations/0001_initial.up.sql:31-34 | the tables start empty |
| ReconcileStore.Store.LookupStrong | internal/reconcile/postgres.go:55-67 | in any order, the lookups find a conflict exactly when two strong identifiers are bound to different assets, and otherwise the one asset |
| ReconcileStore.Store.TouchAsset | internal/reconcile/postgres.go:51-103 | finds or creates the asset of an observation, or fails, as the function says |
| ReconcileStore.Store.BindStrongIdentifiers | internal/reconcile/postgres.go:110-119 | in any order, binding fails exactly when a strong identifier belongs to another asset, and otherwise binds the unbound ones |
| ReconcileStore.Store.RecordAttributes | internal/reconcile/postgres.go:138-158 | in any order, recording fails exactly on a long key or a taken claim identifier, and otherwise supersedes the connector's claims and adds the new ones |
| ReconcileStore.Store.RecordEvidence | internal/reconcile/postgres.go:105-158 | binds the identities and stores the observation and its claims, or fails exactly when a row is taken, a key too long or an identifier bound elsewhere |
| ReconcileStore.Store.Record | internal/reconcile/postgres.go:105-176 | records an observation of a touched asset with its status, changes and counters |
| ReconcileStore.Store.Observe | internal/reconcile/postgres.go:35-177 | one iteration of the observation loop, including its failures |
| ReconcileStore.Store.MarkMissingAssets | internal/reconcile/postgres.go:226-244 | counts absences, expires identities and processes them |
| ReconcileStore.Store.MarkExpired | internal/reconcile/postgres.go:245-263 | whatever the order of the returned rows, the result is the same |
| ReconcileStore.Store.MarkExpiredOne | internal/reconcile/postgres.go:246-262 | one expired identity: claims retracted, status recomputed, asset marked |
| ReconcileStore.Store.MarkRemovedRelationships | internal/reconcile/postgres.go:265-282 | the same for relationship source identities |
| ReconcileStore.Store.RemoveExpired | internal/reconcile/postgres.go:283-291 | whatever the order of the returned rows, the same relationships are removed and counted once each |
| ReconcileStore.Store.ApplyPostgres | internal/reconcile/postgres.go:20-224 | succeeds exactly when the function does, with its tables and summary |
| ReconcileStore.Store.Attempt | internal/app/app.go:707-712 | one reconciliation in its own transaction: a step of a run, kept whole or rolled back whole |
| Effective.ComputeEffective | internal/reconcile/reconcile.go:41-79 | filter, stable sort and distinct count give the effective attribute |
| Effective.SortIsStable | internal/reconcile/reconcile.go:48-64 | claims of equal authority rank and equal time keep their order |
| Effective.TieGoesToFirst | internal/reconcile/reconcile.go:48-68 | among equally good claims the first in the given order decides the value |
| Effective.SortFacts | internal/reconcile/reconcile.go:48-64 | the sorted claims are ordered and a permutation of the given ones |
| Effective.EffectiveFacts | internal/reconcile/reconcile.go:41-79 | the claims returned are a sorted permutation of the active ones, the value is that of a claim that none is ahead of, there is a conflict exactly when two active claims differ, and several sources agree exactly when there are two or more and no conflict |
| Effective.AuthorityDecides | internal/reconcile/reconcile.go:48-68 | if some active claim is of an AUTHORITATIVE connector the value is that of a most recent such claim, whatever the times of the others; otherwise the same for OBSERVED, otherwise for the rest, unlisted connectors included |
| Effective.OrderDoesNotMatter | internal/reconcile/reconcile.go:41-79 | with a unique best claim the value and the conflict flag do not depend on the order of the claims |
| Effective.SqlPicksTheSame | internal/reconcile/postgres.go:297 | with a unique best claim, and stored authorities that are those of the policy, the first row of the SQL ordering is that claim |
| Effective.StoredRankDecides | internal/reconcile/postgres.go:297 | with other stored authorities the query follows them, and can pick another claim than the policy does |
| InMemoryStore.Memory.constructor | internal/reconcile/reconcile.go:37-39 | the state starts empty |
| InMemoryStore.Memory.AddChange | internal/reconcile/reconcile.go:203-212 | a change is recorded and counted exactly when its key is new |
| InMemoryStore.Memory.TouchAsset | internal/reconcile/reconcile.go:105-128 | finds or creates the asset, with its changes and counters |
| InMemoryStore.Memory.StateAttribute | internal/reconcile/reconcile.go:131-146 | one attribute: retires the connector's claims, appends the new one, notes a conflict with the effective value |
| InMemoryStore.Memory.StateAllAttributes | internal/reconcile/reconcile.go:130-147 | in any order the result is the same, except that a new SOURCE_CONFLICT change records the effective value of one of the conflicting attributes |
| InMemoryStore.Memory.ObserveOne | internal/reconcile/reconcile.go:104-148 | one observation, with the conflicting attribute whose value a new SOURCE_CONFLICT change records |
| InMemoryStore.Memory.RelateOne | internal/reconcile/reconcile.go:150-170 | one relationship, skipped when an endpoint is unknown |
| InMemoryStore.Memory.RemoveUnlisted | internal/reconcile/reconcile.go:171-182 | in any order, exactly the connector's ACTIVE unlisted relationships are removed |
| InMemoryStore.Memory.MarkAbsentIdentities | internal/reconcile/reconcile.go:183-199 | in any order, every absent identity is counted and the assets that reach the threshold are marked once each |
| InMemoryStore.Memory.ApplyDelivery | internal/reconcile/reconcile.go:81-202 | whatever the iteration orders, the summary, the error and the state, up to the values recorded by SOURCE_CONFLICT changes, are those of the function; those values come from a conflicting attribute of each observation; and the changes themselves are a function of the state before where no observation has two conflicting attributes |
| InMemoryConflicts.WhatIsRecorded | internal/reconcile/reconcile.go:139-146 | old conflict changes stay; there is a new one for exactly the assets that some observation finds conflicting, and it records the effective value of a conflicting attribute of the first such observation |
| InMemoryConflicts.OneChoice | internal/reconcile/reconcile.go:139-146 | where no observation has two conflicting attributes nothing is left to the iteration order |
| InMemoryRuns.AttributeOrderInvisible | internal/reconcile/reconcile.go:130-147 | stating the attributes in any given order gives the order-free result, up to the recorded conflict value |
| InMemoryRuns.FirstConflictIsRecorded | internal/reconcile/reconcile.go:139-146 | that value is the effective value of the first conflicting attribute in the order |
| InMemoryRuns.OneConflictNoOrder | internal/reconcile/reconcile.go:130-147 | with at most one conflicting attribute every order leaves the same changes |
| InMemoryRuns.OrdersAgreeIff | internal/reconcile/reconcile.go:130-147 | all orders leave the same changes exactly when a SOURCE_CONFLICT change of the asset is recorded already or the conflicting attributes all have one effective value |
| InMemoryRuns.OrderShows | internal/reconcile/reconcile.go:130-147 | an observation and two orders of its attributes that leave different changes |
| InMemoryRuns.RemovalOrderInvisible | internal/reconcile/reconcile.go:171-182 | removing relationships in any given order gives the order-free result |
| InMemoryRuns.AbsenceOrderInvisible | internal/reconcile/reconcile.go:183-199 | counting absences in any given order gives the order-free result |
| InMemoryRuns.ApplyFrame | internal/reconcile/reconcile.go:95-199 | applying a snapshot neither reads nor writes the processed snapshots |
| InMemoryRuns.ProcessedIsDelivered | internal/reconcile/reconcile.go:85-94 | the processed snapshots are exactly the delivered identifiers |
| InMemoryRuns.FirstDeliveriesDecide | internal/reconcile/reconcile.go:81-94 | the final state of any run depends only on the first delivery of each snapshot identifier |
| InMemoryRuns.FailuresLeaveNoTrace | internal/reconcile/reconcile.go:91-94 | without identifier reuse, leaving out every unsuccessful delivery changes nothing but the processed snapshots |
| InMemoryHistory.SafeText | internal/reconcile/reconcile.go:221-233 | a name keeps small letters, digits and dashes, lowers capitals, has a dash for everything else, and loses exactly the dashes at its ends |
| InMemoryHistory.AbsenceCounters | internal/reconcile/reconcile.go:104-129 | after any run an identity is bound exactly when an applied delivery reported it, to the asset named after its external identifier whatever the connector or organization, and its counter is the number of applied deliveries of its connector since the last one that reported it |
| InMemoryHistory.RelationshipStates | internal/reconcile/reconcile.go:149-182 | after any run a relationship exists exactly when an applied delivery listed it between reported identities, and is ACTIVE exactly when the last applied delivery of its connector did |
| InMemoryStatus.AssetStates | internal/reconcile/reconcile.go:104-199 | after any run an asset exists exactly when it was observed; it is MISSING exactly when an identity of it reached the threshold in a delivery that no later one observed it after, otherwise CONFLICTING exactly when connectors disagree on an attribute of its last observation, otherwise ACTIVE; the active claims are the latest statements of each connector |
| InMemoryStatus.MissingWhileReported | internal/reconcile/reconcile.go:183-199 | a run that leaves an asset MISSING although the last delivery of another connector reports it |
| InMemorySummary.SummaryIsExact | internal/reconcile/reconcile.go:95-201 | for any state and delivery: created counts the new identities, the relationship counters the new relationships and those that stop being ACTIVE, changes the new records, and every observation is created, updated or unchanged |
| InMemoryChanges.ChangesAre | internal/reconcile/reconcile.go:104-212 | a delivery applied after any others keeps all changes and adds exactly those of the six kinds that the deliveries call for, asset by asset |
| InMemoryChanges.CountedRows | internal/reconcile/reconcile.go:104-199 | the updated counter is the number of assets that return, the missing counter the number that go missing |
| InMemoryTimes.AssetTimes | internal/reconcile/reconcile.go:104-128 | after any run an asset was last seen by the last applied delivery that observes it, and its first-seen time is that of the last one that reports a new identity of it |
| Graph.BallIsWithin | internal/graph/service.go:41-75 | the level-by-level ball is the set of nodes reachable along at most that many usable edges |
| Graph.BallIsChains | internal/graph/service.go:41-75 | a node is in the ball exactly when a chain of at most that many ACTIVE rows of the organization leads to it, from `from` to `to`, or from `to` to `from` in reverse |
| Graph.BallsAreDual | internal/graph/service.go:51-54 | a node is in the forward ball of another exactly when the other is in its reverse ball |
| Graph.LeavingEachOnce | internal/graph/service.go:44-58 | node by node, every usable edge leaving a visited node is listed exactly as often as in the table |
| Traversal.ExpandNode | internal/graph/service.go:45-71 | one node: all its edges are recorded and its new targets visited once, or the limit is hit exactly when they are too many |
| Traversal.ExpandLevel | internal/graph/service.go:43-73 | one level of the search |
| Traversal.Traverse | internal/graph/service.go:32-78 | returns exactly the ball, without duplicates and nearest first, and the limit error exactly when a limit is out of bounds or the ball is larger than allowed |
| Traversal.TraversalEdges | internal/graph/service.go:44-58 | the relationships listed are those leaving a node nearer than the depth, with multiplicity |
| Traversal.QueryLevel | internal/graph/postgres.go:35 | the query returns distinct unvisited targets of the frontier, as many as there are or as the row limit allows |
| Traversal.TraversePostgres | internal/graph/postgres.go:15-77 | returns exactly the ball and its induced subgraph; the row limit never truncates silently |
| Traversal.QueryRefinesTraversal | internal/graph/postgres.go:29-76 | both searches find the same nodes; the query's extra relationships are exactly those from distance equal to the depth to a visited node; its depth leaves out the final empty level |
| Traversal.ResultsAreChains | internal/graph/postgres.go:35-64 | both traversals list exactly the nodes that such chains lead to; the first lists the ACTIVE rows that leave a node nearer than the depth, the second those between listed nodes |
| Traversal.TraversalsAreDual | internal/graph/service.go:32-78 | a node is in the forward result of another exactly when the other is in its reverse result |
| Delivery.ExecInv | cmd/infragraph-collector/main.go:61-79 | every state reached by any interleaving of collector steps, server steps, crashes and losses satisfies the protocol invariant |
| Delivery.ExactlyOnceInOrder | cmd/infragraph-collector/main.go:264-354 | each connector's commits are the first published snapshots of its collector, each once and in increasing sequence order; every published snapshot is committed or in the spool, which holds at most one |
| Delivery.RemovedOnlyAfterCommit | cmd/infragraph-collector/main.go:346-351 | a file leaves the spool only after its snapshot was committed, and no commit is undone |
| Delivery.RetriesAreNeverReplays | internal/app/app.go:691-699 | no request, however often or late it arrives, is rejected as a replay |
| Delivery.AcceptedIffNoCollision | cmd/infragraph-collector/main.go:173 | a request that reconciliation accepts succeeds exactly when no other connector committed the same sequence number |
| DeliveryReplays.CommittedRise | internal/app/app.go:691-699 | whatever is requested of an empty table, the sequence numbers committed for one connector of one organization are positive and strictly increase |
| DeliveryReplays.AnswersAre | internal/app/app.go:676-720 | every answer in terms of what is committed: replay exactly when no snapshot of the organization has the identifier and the number is not above the connector's last, and likewise idempotent, conflict, committed and rejected |
| DeliveryCollisions.CollisionHappens | cmd/infragraph-collector/main.go:264-283 | two collectors that read the same clock reach a state in which the second one's snapshot is answered with a conflict in the same organization and rejected in another |
| DeliveryCollisions.CollisionIsPermanent | cmd/infragraph-collector/main.go:61-79 | from then on, whatever happens, that snapshot is never committed and never leaves the spool, and its collector never publishes again |
| DeliveryCollisions.RefusalBlocks | internal/app/app.go:651-654 | as long as the server does not let a spooled snapshot through, because it is too old or reconciliation rejects it, it is not committed, stays in the spool and its collector publishes nothing |
| CollectorFiles.Gateway.Snapshot | internal/app/app.go:667-725 | ingest answers and changes the table as the protocol function says; a rejected snapshot leaves no row |
| CollectorFiles.DataDirectory.AllocateSequence | cmd/infragraph-collector/main.go:264-283 | the new number is the clock or one more than the last, larger than the last unless the file cannot be read; a failed write changes nothing |
| CollectorFiles.DataDirectory.QueueSnapshot | cmd/infragraph-collector/main.go:285-318 | the snapshot is published exactly when the directory, with the pending files that interrupted writes left, stays within its size limit and the write succeeds; nothing else changes, and the listing stays in sequence order |
| CollectorFiles.DataDirectory.FlushSpool | cmd/infragraph-collector/main.go:320-354 | posts in order and removes acknowledged files until the first failure; only committed snapshots are removed |
| CollectorFiles.FlushIsSafe | cmd/infragraph-collector/main.go:320-354 | a flush removes a prefix of the spool, every removed file is committed, and it succeeds exactly when nothing is left |
| Audit.Verify | internal/audit/audit.go:40-50 | the loop accepts exactly the sequences in which every event links to the one before and its hash matches its content |
| Audit.HashInjective | internal/security/security.go:188-194 | the separator makes the hash determine both the previous hash and the content |
| Audit.FinalHashDetermines | internal/audit/audit.go:40-50 | two verified chains of any lengths with equal final hashes are equal event by event |
| Audit.PrefixHashDiffers | internal/audit/audit.go:40-50 | a truncated chain never has the final hash of the whole |
| Audit.Log.Append | internal/audit/audit.go:19-39 | appends a row linked to the latest one, at the clock's time if the event has none and with the time and payload that the columns give back, or fails on missing fields or a taken identifier |
| Audit.AppendVerifiesIff | internal/audit/audit.go:29-37 | an append keeps the chain verified exactly when the event sorts after every row and its time and its payload are read back as they were hashed |
| Audit.AppendsVerifyIff | internal/audit/audit.go:19-50 | a run of appends with distinct identifiers verifies exactly when every time and payload is read back as it was hashed and the times, then identifiers, increase; it is then read in append order |
| AuditIdeal.IdealIsSound | internal/security/security.go:188-194 | the assumptions on the digest and the canonical form can be met |
| Audit.RoundingBreaksChain | internal/audit/audit.go:34-37 | with a microsecond column, an event at a finer time breaks every chain it is appended to |
| Audit.PayloadBreaksChain | internal/audit/audit.go:34-37 | an event whose payload is not read back as it was hashed breaks every chain it is appended to, whatever its time |
| AuditPayload.SnapshotEventBreaksChain | internal/app/app.go:717 | the event of a reconciled snapshot breaks every chain: its summary is hashed in the order of the record's fields and read back in the order of its keys |
| Limiter.RateLimiter.constructor | internal/app/app.go:83-101 | a limiter starts without windows |
| Limiter.DropExpired | internal/app/app.go:83-101 | in any order, pruning drops exactly the windows older than two periods |
| Limiter.RateLimiter.Allow | internal/app/app.go:83-101 | prunes, counts the call in its window and allows it exactly when the count is within the limit |
| Limiter.PruningIsInvisible | internal/app/app.go:83-101 | for every sequence of calls in time order, every answer is that of a limiter that never prunes |
| Limiter.OtherKeysDoNotMatter | internal/app/app.go:83-101 | for every sequence of calls in time order, every answer is that of a limiter that sees only the calls for its key |
| Limiter.BurstBound | internal/app/app.go:83-101 | in any interval no longer than the period at most twice the limit minus one calls for a key are allowed |
| Limiter.BurstReached | internal/app/app.go:83-101 | the bound is reached for every limit and every period of at least one |
| JsonDepth.ScanDepth | internal/imports/imports.go:136-162 | the loop computes the maximum depth of the byte automaton |
| JsonDepth.ScannerMeasuresDepth | internal/imports/imports.go:136-162 | for every JSON value and every spelling allowed by sections 2 to 7 of RFC 8259 the scanner returns the nesting depth of the value |

## Left out

- Columns of the persistent tables that no property needs: timestamps, display names, environment, authority, confidence, fingerprints, and the before and after values of changes.
- Which of several errors of one observation is reported: the class and the functions agree on whether an attempt fails, and the loops over Go maps make the kind depend on the iteration order.
- RETIRED assets: no modelled step creates them, so runs from empty tables never meet the guard on that status.
- Concurrent reconciliation of two connectors, isolation levels and locks.
- Traversal.QueryLevel: returns rows in an arbitrary order, because the order by target depends on the collation of the database.
- Traversal.TraversePostgres: does not state the order by target within a level or the order by identifier of the relationships, for the same reason.
- ReconcileStore.Store.Attempt: the snapshot row, the replay check and the audit event of the ingest transaction are modelled apart from it, in CollectorFiles and Audit.
- Deadlines and cancellation in both traversals.
- CollectorFiles.DataDirectory.FlushSpool: the outcome of each post, of file reads and of the age and window checks is a parameter; the age limit of seven days against the server's window of 24 hours is therefore not modelled as time.
- CollectorFiles.DataDirectory.AllocateSequence: numbers do not overflow 64 bits.
- Signing and verifying snapshots: a request that reaches ingest has passed both.
- In-memory asset names, and the wall clock that replaces a missing completion time: the delivery carries the time.
- `safe` on characters outside ASCII.
- Unicode case folding, and the JSON encoding of attribute values: an attribute value is its normalised text.
- `resolution.Resolve`, which the persistent path does not call.
- The reconciliation policy lookup: the threshold and the authorities are parameters.
- HTTP routing, sessions, login, enrolment, heartbeats, list endpoints, metrics and configuration.
- The Docker and Kubernetes connectors, object storage, the scheduler lease, and CSV and Terraform imports: I/O, or facts read from one statement.
- Internals of SHA-256 and Ed25519.
