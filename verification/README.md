# Profgate: publication, replay, sampling and discovery

Profgate is a gateway that collects profiles from the Pods of a Kubernetes Service. Several
replicas share one NATS key-value bucket; each publishes Collections, runs them, and answers
requests about them from caches that follow the bucket. This project models the parts where those
replicas, and the client processes around them, have to agree, and proves what each part promises.

- **Publication.** `JobStore` is the bucket by its contract. `Publication` is the machine: any number
  of publications, cancels, worker scans and owners, sweeper passes and receipt lookups, one store
  call at a time. A write that is not acknowledged stays in flight and may take effect at once, at
  any later step, or never. `PublicationSafety` proves what every reachable state keeps,
  `PublicationRuns` what it gets done. `Publish` is the code of one publication as ordered statements,
  proved to make the machine's calls and to report what the answers to them say.
- **The ceiling.** `Publisher` is the replica's list of reservations. `Ceiling` puts it over the
  protocol and two caches that lag. It says at which steps, and only there, the release rule's promise
  breaks, traces every such step to one of two things that went wrong before it, and proves the
  live-Collection ceiling for every run without them. `CeilingLimits` holds runs past the ceiling for each.
  `LiveCount` proves that the number the caches give is the one the ceiling is proved for.
- **Replay and caches.** `Following` is a cache as a place in the history of what it follows, which is
  how the ceiling sees its caches; `BarrierFollows` proves that a watch and its cache are one.
  `Barrier` is the generation, the watch loops and their channels, under dropped connections, cut
  subscriptions, slow opens and lag; `BarrierRuns` is what its own answer is worth, and that replays
  complete. `WatchedCache` says what a cache is for, `Caches` is the class that holds four of them,
  `Wakeup` the long poll that waits on them.
- **The listing.** `Listing` is its order and its pages, `Walk` the client's walk, `Cursor` the token
  between two pages, `ReceiptScope` the text a receipt key hashes, `Text` the splitting they share.
- **Sampling.** `Policy` holds the ceilings, `Deadline` the work queue against the deadline formula,
  `Rounds` one attempt's samples and merges, `Sizing` the memory figure in 64-bit arithmetic.
- **Discovery.** `Eligibility` is the pass over EndpointSlices against a reading of the snapshot that
  knows no order, `Explanation` the reasons and the counts.
- **Two clients.** `Refresh` is the token cache several processes share, `RefreshOutcomes` what each
  operation makes of it; `Chunks` is the object read that survives losing its consumer.

Where the source mutates state, the model is a class or a method with loops, tied by its contract to
functions of the old state. Where several processes interleave, it is a machine over their steps, and
the theorems are about every run.

Four places where the source's own words and its code differ, or where a promise has an edge:

- The publisher's comment says the active key never exists without its record. What holds is that the
  record was created first (`PublicationSafety.RecordBeforeKeys`). That it still stands breaks at exactly
  two kinds of call (`PublicationSafety.KeyOutlivesExactly`): the delete of a record its active key still
  names, and the create of an active key for a record that is gone. Three processes make them
  (`PublicationSafety.WhoOrphans`): `withdraw`, which deletes the record first
  (`PublicationSafety.KeyWithoutRecord` stops there); the sweeper, when it retires a finished record
  whose key was never released; and a publication whose record was failed and retired before its claim
  of the Service was made, or before a lost claim landed.
- The release rule says that what it gives back is counted by the caches from then on. That breaks
  exactly where a record is created after its reservation went back, where the active key of an
  unfinished record is deleted before the job cache has the record, and where a reservation goes back over
  an unfinished record the job cache does not have and the active key does not name
  (`Ceiling.BreaksExactlyAt`). Each of these goes back to a create that lands after the rule looked for
  the record, or to a keyed withdrawal that lost the answer to its record's delete
  (`Ceiling.OnlyLateOrWithdrawn`). Without them the ceiling holds (`Ceiling.CeilingWhenAnswered`), and
  without idempotency keys the second cannot happen (`Ceiling.UnkeyedCeiling`); with either it can be
  passed (`CeilingLimits.LateCreateExceeds`, `CeilingLimits.KeyedWithdrawExceeds`).
- An issuer that rotates refresh tokens can be shown a retired one after exactly three kinds of step
  (`Refresh.StrandsExactlyWhenUnfair`, `Refresh.UnfairCanReuse`): a rotation whose answer is lost, a
  rotated token that is not recorded, and a revoked entry that is not deleted. The second includes a
  choice of the source: a refresh whose new token has no readable expiry returns before it writes the
  rotated refresh token (`Refresh.UnrecordedReuses`).
- The ranges of the single limits admit combinations whose memory figure no signed 64-bit integer
  holds (`Sizing.RangesAdmitRefused`); the check refuses exactly those.

## Model

| member | source | states |
|---|---|---|
| `PublicationSafety.StepKeeps` | internal/pgo/publisher.go:268-333 | every step of every actor keeps the invariant; records only move along their lifecycle and never return once gone |
| `PublicationSafety.EveryRunSafe` | internal/pgo/publisher.go:247-276 | every reachable state satisfies the invariant, whatever was lost, landed late or interleaved |
| `PublicationSafety.OneLivePerService` | internal/pgo/publisher.go:268-333 | two pending or running records of one Service are the same record, and its active key names it |
| `PublicationSafety.ReceiptNamesClaimable` | internal/pgo/publisher.go:427-473 | every stored keyed record that was ever claimable is the one its receipt names, so a key has at most one |
| `PublicationSafety.RecordBeforeKeys` | internal/pgo/publisher.go:250-256 | an active key or a receipt exists only for a record that was created before it |
| `PublicationSafety.KeyWithoutRecord` | internal/pgo/publisher.go:474-483 | a run that ends between the withdrawal's two deletes, with an active key whose record is gone |
| `PublicationSafety.KeyOutlivesExactly` | internal/pgo/publisher.go:250-256 | from any state in which every active key names a stored record, a step keeps that if and only if its call is neither the delete of a record its key still names nor the create of a key for a record that is gone |
| `PublicationSafety.ReturnedLeavesNothing` | internal/pgo/publisher.go:403-417 | a reservation Publish itself gave back has no unfinished record, and none to come |
| `PublicationSafety.WonIsPublished` | internal/pgo/publisher.go:319-333 | a publication that reports success has just made its record pending, with its active key and its receipt naming it |
| `PublicationSafety.LookupFindsBinding` | internal/httpapi/pgo_collections.go:636-681 | if a claimable record stands at a keyed request's first read, its receipt leads to that record, and the second read, in any later state, ends the lookup without clearing anything if and only if the record still stands |
| `PublicationSafety.DeadForever` | internal/pgo/worker.go:409-479 | over any run a terminal or deleted record is never live or claimable again |
| `PublicationSafety.LandsOnce` | internal/pgo/publisher.go:283-297 | a record comes into being by its own publication's create and nothing else |
| `PublicationSafety.ClaimsOnce` | internal/pgo/publisher.go:298-312 | a publication gets its Service's key by one call only: the step that gives it the key leaves no second claim to make or to land, so a key it has lost never returns to it |
| `Publish.Publish` | internal/pgo/publisher.go:268-333 | from the requests and their answers alone: Won exactly when the last request is the update to pending, at the revision the create was answered with, and was done; Busy exactly when the active create was refused; the reservation returned exactly when the record's create was refused, or the discard of a lost record was answered; the update exactly when no key was given or the receipt is bound, otherwise both deletes for one of the named reasons; and these are the machine's calls |
| `Publish.DiscardLostRecord` | internal/pgo/publisher.go:403-417 | a definite delete gives the reservation back, an indeterminate one leaves it tracked |
| `Publish.CreateReceiptFor` | internal/pgo/publisher.go:427-468 | bound exactly when its last request created the receipt or read it back as its own; otherwise its last request is one of five that cannot bind it |
| `Publish.Withdraw` | internal/pgo/publisher.go:474-483 | both deletes are attempted, the record's first |
| `PublicationRuns.FreeKeysWin` | internal/pgo/publisher.go:268-333 | from every reachable state, a publication over free keys whose calls are all answered ends won, keyed or not, with its record pending and both keys naming it |
| `PublicationRuns.LostReceiptWins` | internal/pgo/publisher.go:435-456 | a receipt create that is lost and lands is refused to the retry, read back as the publication's own, and it ends won |
| `PublicationRuns.StaleReceiptReplaced` | internal/pgo/publisher.go:457-468 | a receipt whose record is gone is replaced and the publication ends won |
| `PublicationRuns.BoundKeyWithdraws` | internal/pgo/publisher.go:457-483 | a receipt whose record stands makes the publication withdraw, leaving neither its record nor its key |
| `PublicationRuns.TakenServiceIsBusy` | internal/pgo/publisher.go:300-305 | where the Service is taken a publication ends busy, its record discarded and its reservation returned |
| `PublicationRuns.CancelFreesService` | internal/httpapi/pgo_collections.go:1106-1169 | an uncontested cancel of a live Collection ends it cancelled and frees its Service |
| `PublicationRuns.OwnerCompletes` | internal/pgo/worker.go:606-812 | a pending Collection that is claimed and finished ends completed and its Service is free |
| `PublicationRuns.RetiresWithReceipt` | internal/pgo/sweeper.go:273-323 | a finished record is retired together with the receipt that names it |
| `PublicationRuns.LookupClearsStale` | internal/httpapi/pgo_collections.go:636-681 | a keyed lookup whose receipt names a record that is gone, or was failed before it was published, clears that receipt and touches no record |
| `PublicationRuns.ScanAndSweepMove` | internal/pgo/worker.go:409-479 | a record left initializing is failed by the scan, a completed one expired by the sweeper |
| `PublicationRuns.SweepFreesKey` | internal/pgo/sweeper.go:409-427 | the sweeper frees an active key whose record is gone or finished |
| `Publisher.Publisher.Reserve` | internal/pgo/publisher.go:121-136 | refuses exactly without a cache answer or at the ceiling, otherwise holds one more and stays within it |
| `Publisher.Publisher.Release` | internal/pgo/publisher.go:152-171 | drops exactly this reservation, in place; a second release changes nothing |
| `Publisher.Publisher.ReleaseResolved` | internal/pgo/publisher.go:191-213 | gives back exactly the tracked reservations found resolved, the others keep their order |
| `Publisher.Publisher.Reserved` | internal/pgo/publisher.go:174-179 | of all reservations ever made, the number not given back |
| `Publisher.Reservation.Track` | internal/pgo/publisher.go:138-145 | from then on the release rule gives the reservation back exactly when it finds this Collection resolved |
| `Ceiling.BreaksExactlyAt` | internal/pgo/publisher.go:181-213 | from any state in which the caches count whatever was given back, a step leaves something uncounted if and only if it creates a record whose reservation went back, deletes the key of an unfinished record the job cache lacks, or gives a reservation back over an unfinished record the job cache lacks and the active key does not name |
| `Ceiling.SoundExactlyWhenCareful` | internal/pgo/publisher.go:181-247 | over every run, keyed or not, the caches count what was given back throughout if and only if no step is one of those |
| `Ceiling.OnlyLateOrWithdrawn` | internal/pgo/publisher.go:215-242 | every such step of a run goes back to an earlier event, or is it: a create of that record landing out of flight after the rule's first read or its release, or a withdrawal of that record losing the answer to its record's delete |
| `Ceiling.CheckedStaysFinished` | internal/pgo/publisher.go:215-242 | a record the rule's first authoritative read found gone or terminal is unfinished later only if its create landed out of flight after that read |
| `Ceiling.AnsweredDeleteFinishes` | internal/pgo/publisher.go:474-483 | a publication that withdrew leaves an unfinished record only if the answer to the record's delete was lost |
| `Ceiling.NextKeeps` | internal/pgo/publisher.go:121-247 | every event but those of BreaksExactlyAt, of a replica, its caches and everyone else, keeps the count of held reservations and unfinished published Services within the ceiling |
| `Ceiling.CeilingHolds` | internal/pgo/publisher.go:121-247 | up to the first such step, held reservations plus Services it published that still have an unfinished record never exceed the ceiling |
| `Ceiling.CeilingWhenAnswered` | internal/pgo/publisher.go:121-247 | keyed or not, the ceiling holds over every run in which no create lands after the rule looked for its record and every withdrawal of the replica's own hears the answer to its record's delete |
| `Ceiling.UnkeyedCeiling` | internal/pgo/publisher.go:121-247 | without idempotency keys the ceiling holds over every run in which no create lands after the rule looked for its record, whichever writes go unanswered |
| `Ceiling.CachesCoverUncounted` | internal/pgo/caches.go:647-666 | two complete caches show every Service whose reservation the replica no longer holds |
| `Ceiling.SightGivesBack` | internal/pgo/publisher.go:215-223 | a tracked reservation is given back by the next look at the caches exactly when the job cache has the record in any state or the active cache the key with this identifier |
| `Ceiling.ReadsGiveBack` | internal/pgo/publisher.go:225-247 | and by the two reads of a pass exactly when the record is gone or terminal and the key is absent or names another |
| `LiveCount.CountsTheSame` | internal/pgo/caches.go:647-666 | over the content two caches show, the Services counted as live are those the ceiling is proved for |
| `LiveCount.CountsWhileItMayRun` | internal/pgo/caches.go:147-159 | a cached state counts as live exactly when allowed steps can still take its record to running; an unknown state always counts |
| `LiveCount.ClaimableOncePending` | internal/httpapi/pgo_collections.go:655-661 | the lookup's test holds exactly of the phases a record that was once pending can be in |
| `CeilingLimits.LateCreateExceeds` | internal/pgo/publisher.go:218-242 | runs without keyed publications whose lost record create lands after the release rule's reads, or between them, ending one above the ceiling |
| `CeilingLimits.KeyedWithdrawExceeds` | internal/pgo/publisher.go:474-483 | runs in which no write takes effect late, whose withdrawal lost its record delete, the reservation given back before the key went or on the stale sight of it, ending one above the ceiling |
| `BarrierFollows.StepRefines` | internal/natskv/client.go:770-881 | every step of the barrier, cuts and new generations included, is moves of a place in the history of the prefix |
| `BarrierFollows.CacheIsAPlace` | internal/pgo/caches.go:378-412 | over every run a cache that has heard of the current generation is such a place: complete, it shows the content there; replaying, the part that has arrived |
| `Following.SpreadMoves` | internal/pgo/caches.go:310-351 | following one key family of a bucket is following the bucket: each move has its moves there |
| `WatchedCache.FoldFollowsContent` | internal/pgo/caches.go:451-514 | folding an entry into what a cache shows is showing the content after that entry, unreadable and malformed ones included |
| `Barrier.NextKeeps` | internal/natskv/client.go:770-881 | every step of the connection, the watch loops and the caches keeps each channel one follower's account of its log |
| `Barrier.GuardedRead` | internal/pgo/caches.go:581-592 | a read guarded by the current generation answers from the bucket's content at some point since that generation began, for every cache it consulted |
| `Barrier.SeesEarlierGenerations` | internal/natskv/client.go:351-365 | everything written while an earlier generation was current is in view of every guarded read |
| `Barrier.ReadsNeverGoBack` | internal/pgo/caches.go:378-412 | of two guarded reads under one generation the later one is of the same point or a later one |
| `Barrier.TagsGrow` | internal/natskv/client.go:831-881 | generation tags never decrease along a channel, nor below the cache's own |
| `Barrier.CachesImplyClient` | internal/natskv/client.go:395-431 | when all four caches have replayed under the current generation, the connection reports every watch replayed |
| `BarrierRuns.ClientSyncedExactly` | internal/natskv/client.go:395-431 | over every run the connection reports a generation replayed exactly when it is current and every registered watch's cache will be complete under it once it has applied what its channel holds; open and re-opening watches are registered |
| `BarrierRuns.ReplayCompletes` | internal/natskv/client.go:770-881 | from every reachable state with the connection up, a watch that has to be opened can complete its replay, its cache then passing the guard and showing the bucket as it is |
| `Caches.Caches.constructor` | internal/pgo/caches.go:233-245 | four empty, incomplete caches |
| `Caches.Caches.StartAttempt` | internal/pgo/caches.go:358-363 | clears every replay flag and nothing else |
| `Caches.Caches.Reset` | internal/pgo/caches.go:415-428 | empties one cache, with its index, and leaves the others |
| `Caches.Caches.Apply` | internal/pgo/caches.go:378-412 | one entry changes its cache as the specification says, no other cache, and the index stays exact |
| `Caches.Caches.ApplyPlain` | internal/pgo/caches.go:431-448 | one entry of the three caches that are one map, folded in |
| `Caches.Caches.ApplyJob` | internal/pgo/caches.go:451-498 | one job entry folded in, with the index exact even when a record changes Service |
| `Caches.Caches.DeleteJob` | internal/pgo/caches.go:502-514 | one record gone, and its Service's set with it when it empties |
| `Caches.Caches.Consume` | internal/pgo/caches.go:366-373 | a whole channel of entries is the fold of them, and the index is exact after all of them |
| `Caches.Caches.CachedLive` | internal/pgo/caches.go:647-666 | the number of distinct Services with an active key or an unfinished record, answered exactly when the connection has this generation and the job and active caches, and no others, have replayed under it |
| `Caches.Caches.Collections` | internal/pgo/caches.go:785-841 | answered under the job cache's guard: newest first, at most the limit, exactly this Service's records that every filter keeps behind the position, but for older ones when there are more |
| `Caches.SortPlaces` | internal/pgo/caches.go:830-834 | the sorted listing of the places it is given |
| `Listing.OrderIsTotal` | internal/pgo/caches.go:765-771 | the listing order is total, newest first and by identifier descending, and equates only equal places |
| `Listing.ListingIsUnique` | internal/pgo/caches.go:758-771 | a set of places has one listing |
| `Listing.PageFacts` | internal/pgo/caches.go:785-841 | a page is in order, past its position, and everything it passes over lies behind its last entry |
| `Listing.AnswersTheRequest` | internal/pgo/caches.go:785-841 | what a page holds in terms of the request's own words: states, since, origin, position, limit |
| `Listing.AtMostOnce` | internal/pgo/caches.go:785-841 | no place is on two pages of a walk, or twice on one, whatever the caches did in between |
| `Listing.ExactlyOnce` | internal/pgo/caches.go:785-841 | a record that stays cached and admitted through a walk is on exactly one of its pages |
| `Walk.WalkCollections` | cmd/profgate/collect.go:316-346 | over a cache that does not change the walk ends, never meets a repeated cursor, and returns the whole listing in order |
| `Wakeup.Subscribers.Subscribe` | internal/pgo/caches.go:252-266 | a channel of its own, empty, registered for one record |
| `Wakeup.Subscribers.Unsubscribe` | internal/pgo/caches.go:267-280 | removes one channel, and the record's entry when it was the last |
| `Wakeup.Subscribers.PulseSubscribers` | internal/pgo/caches.go:282-293 | every channel waiting on the record holds a pulse afterwards, and no other gains one |
| `Wakeup.NoLostWakeup` | internal/httpapi/pgo_collections.go:863-917 | a parked request with an empty channel has read at least the newest version the cache has shown, in every interleaving |
| `Wakeup.EveryEntryPulses` | internal/pgo/caches.go:282-293 | whatever entry of its record was applied since a parked request last began to read, a replayed one included, has left a pulse in its channel |
| `Wakeup.DeadlineAnswersFresh` | internal/httpapi/pgo_collections.go:852-900 | an answer given at the deadline comes from a read of what was current then, or newer |
| `Wakeup.MovedReadAnswers` | internal/httpapi/pgo_collections.go:875-888 | a read that saw the record move, or came after the deadline, is answered with what it read, for good |
| `Wakeup.PulseOrDeadlineAnswers` | internal/httpapi/pgo_collections.go:890-917 | a parked request with a pulse, or whose deadline passes, reads again and can be answered with the newest version |
| `Wakeup.AnsweredForAReason` | internal/httpapi/pgo_collections.go:875-888 | a request is answered only by a read that saw the record move or came after its deadline |
| `Cursor.EncodeCursor` | internal/httpapi/pgo_collections.go:211-230 | the token of a position and its filters |
| `Cursor.DecodeCursor` | internal/httpapi/pgo_collections.go:237-275 | reads a token or refuses it, as its meaning says |
| `Cursor.CursorRoundTrip` | internal/httpapi/pgo_collections.go:211-275 | a token reads back as the position and the filters it was written from |
| `Cursor.AcceptedIsCanonical` | internal/httpapi/pgo_collections.go:232-275 | an accepted token has a valid identifier and known states, each once, in the order of their names |
| `Cursor.CursorsDiffer` | internal/httpapi/pgo_collections.go:211-230 | different positions or filters never share a token |
| `ReceiptScope.ScopeBytes` | internal/pgo/caches.go:46-51 | the text of a scope, field by field |
| `ReceiptScope.ScopeIsInjective` | internal/pgo/caches.go:39-51 | equal texts come from equal principals, namespaces, Services and keys |
| `Policy.Validate` | internal/pgo/policy.go:340-408 | reports exactly the fields out of range, once each, in the policy's order, each under the one code its value calls for |
| `Policy.SamplesBounded` | internal/config/config.go:1208-1213 | an admitted policy samples at most 256 Pods in all |
| `Deadline.RunRound` | internal/pgo/rounds.go:312-368 | a queue over the samplers ends within one sample bound per batch, whichever free sampler takes what, and exactly then in the worst case |
| `Deadline.RunRounds` | internal/pgo/record.go:235-246 | with every sample's admission wait, profile and allowance within bounds, all rounds and pauses end a minute or more before the deadline, and in the worst case exactly a minute |
| `Deadline.DeadlineFits` | internal/pgo/record.go:235-246 | no product or sum of the formula leaves a signed 64-bit integer for an admitted policy |
| `Sizing.RefusedExactly` | internal/config/config.go:1255-1286 | the limits are refused if and only if the mathematical figure exceeds a signed 64-bit integer |
| `Sizing.AcceptedNeverWraps` | internal/config/config.go:552-587 | for accepted limits both wrapped figures are the mathematical ones and positive |
| `Sizing.RangesAdmitRefused` | internal/config/config.go:1245-1254 | limits inside every single range that the check refuses |
| `Rounds.RunState.Absorb` | internal/pgo/rounds.go:373-407 | one sample merged and recorded: counts, manifest and running profile stay exact, and it fails exactly when the merged profile cannot be measured or is too large |
| `Rounds.RunRound` | internal/pgo/rounds.go:312-368 | absorbs samples as they arrive and none after a failure; no_samples exactly when none succeeded, the other two exactly when the running profile cannot be measured or is too large |
| `Rounds.TargetsFor` | internal/pgo/rounds.go:226-259 | distinct Pods of the resolved version, the lesser of those there are and those wanted, marked truncated exactly when there are more; and each reason for none exactly where it applies |
| `Rounds.ResolveVersion` | internal/pgo/runtime.go:578-592 | the one eligible version, or missing when there is none and conflict when there are two |
| `Rounds.FilterTargets` | internal/pgo/rounds.go:263-272 | keeps exactly what the predicate accepts, in its order |
| `Rounds.DistinctVersions` | internal/pgo/rounds.go:276-288 | each version once, in the order they first appear |
| `Rounds.DedupeByUID` | internal/pgo/rounds.go:291-303 | one entry per Pod, the first, in the order they came |
| `Rounds.Shuffle` | internal/pgo/rounds.go:251-251 | rearranges the targets and loses none |
| `Rounds.Run` | internal/pgo/rounds.go:133-180 | however an attempt ends its accounts are exact, each round sampled distinct Pods of one version, at most 256 samples were made, and every round brought a good sample or the last one ended it for exactly the reason given |
| `Rounds.TerminalTooLarge` | internal/pgo/record.go:206-233 | the samples go, the counts they carried stay |
| `Rounds.RecountAgrees` | internal/pgo/record.go:216-229 | the recount equals the progress the attempt kept |
| `Eligibility.Resolve` | internal/k8s/eligibility.go:144-234 | the targets are exactly the live selected Pods with one agreed address, each once, at the port the request selects and only without a request at the default's; and the facts say of each named Pod what the set of endpoints says |
| `Eligibility.RequestOverridesDefault` | internal/k8s/eligibility.go:303-325 | once the request selects a port or a name, the configured default changes no target |
| `Eligibility.Hear` | internal/k8s/eligibility.go:176-218 | one endpoint changes a Pod's facts to those of the larger set of endpoints |
| `Eligibility.AddressFamily` | internal/k8s/eligibility.go:267-279 | IPv4 when any slice is, otherwise IPv6; without either nothing is read |
| `Eligibility.ReadsOneFamily` | internal/k8s/eligibility.go:267-279 | the endpoints read are those of the IPv4 slices, and only without one those of the IPv6 slices |
| `Eligibility.OrderDoesNotMatter` | internal/k8s/eligibility.go:144-160 | slices and endpoints in any order or number give the same endpoints read, hence the same targets |
| `Eligibility.PermutedHasSameContent` | internal/k8s/eligibility.go:144-160 | a permutation of the slices is such a reordering |
| `Eligibility.FactsAgree` | internal/k8s/eligibility.go:125-126 | the facts call a Pod a target exactly when the snapshot does, at the same address and port |
| `Explanation.Targets` | internal/k8s/eligibility.go:23-37 | the targets of the snapshot, each once, at the port the request selects or else the default's |
| `Explanation.Explain` | internal/k8s/eligibility.go:43-79 | the same targets from the selected Pods alone, every other selected Pod counted once under its reason, in vocabulary order, and the sum is the number of Pods |
| `Explanation.Attribute` | internal/k8s/eligibility.go:242-265 | the reason the table gives, read from the facts |
| `Explanation.FirstReasonThatApplies` | internal/k8s/eligibility.go:236-265 | a Pod some eligible endpoint would make a target carries the conflict, any other the first reason of the vocabulary that applies to it |
| `Explanation.ConflictReasonIffWarned` | internal/k8s/eligibility.go:128-133 | a Pod that is no target carries the conflict exactly when the operator is warned of one |
| `Explanation.PortReasonMeansNoPort` | internal/k8s/eligibility.go:303-325 | the default reason is given only to a live Pod with one agreed address and no pprof port |
| `Explanation.SelectedSuffice` | internal/k8s/eligibility.go:38-62 | reading only the selected Pods gives the same targets |
| `Explanation.FilterTargets` | internal/httpapi/server.go:717-743 | keeps what passes version and Pod in that order and counts what each dropped |
| `Explanation.MergeExclusions` | internal/httpapi/server.go:747-763 | the two counts added reason by reason, in vocabulary order |
| `Explanation.ServeTargets` | internal/httpapi/server.go:685-713 | each reason is reported with the number of selected Pods that carry it, the filters' reasons going to the Pods each filter drops, and selectorMatched equals the targets returned plus all of them |
| `Refresh.MutualExclusion` | internal/client/cache.go:136-169 | at most one process is between taking the lock and releasing it |
| `Refresh.ChangesUnderLock` | internal/client/refresh.go:117-211 | the entry changes only by the process that holds the lock |
| `Refresh.RefreshRevivesNothing` | internal/client/refresh.go:160-211 | a refresh writes or deletes only over the very entry it read, so it never revives a deleted one |
| `RefreshOutcomes.EmptiedOnlyWhenRefused` | internal/client/refresh.go:156-173 | over every run the file is emptied only by a logout, or by a refresh the issuer refused for good over the entry that still stands there |
| `RefreshOutcomes.RefusedEntryGoes` | internal/client/refresh.go:160-175 | after such a refusal, its re-read and delete succeeding, the file is empty, whatever other processes do in between |
| `RefreshOutcomes.OtherAnswerKeeps` | internal/client/refresh.go:46-50 | after any other answer that grants nothing, a request to wait included, the file is what it was when the lock was taken |
| `RefreshOutcomes.GrantIsRecorded` | internal/client/refresh.go:177-205 | a granted refresh that is recorded leaves the entry with the issuer's token in place of the old one |
| `RefreshOutcomes.LoginStores` | internal/client/login.go:322-333 | a login that takes the lock and writes leaves its entry |
| `RefreshOutcomes.LogoutEmpties` | internal/client/login.go:413-446 | a logout whose file operations succeed leaves no entry, whatever the issuer answers |
| `Refresh.NeverReused` | internal/client/refresh.go:117-211 | while rotations are answered, rotated tokens recorded and revoked entries deleted, the issuer is never shown a retired refresh token |
| `Refresh.StrandsExactlyWhenUnfair` | internal/client/refresh.go:182-211 | after any run of that kind a step leaves a retired token on file, nobody about to replace it, if and only if it is one of the three it excludes |
| `Refresh.UnfairCanReuse` | internal/client/refresh.go:117-157 | any such step of any such run can be followed by one refresh that shows the issuer a retired token |
| `Refresh.LostAnswerReuses` | internal/client/refresh.go:150-157 | a run in which a lost answer leads to reuse |
| `Refresh.UnrecordedReuses` | internal/client/refresh.go:182-205 | a run in which a failed write, or an unreadable expiry, leads to reuse |
| `Refresh.UndeletedReuses` | internal/client/login.go:430-446 | a run in which a failed delete after a revocation leads to reuse |
| `Chunks.PumpChunks` | internal/natskv/client.go:1088-1140 | success means every chunk once, in order, with the metadata's digest; anything else a prefix; and success whenever only consumers vanish and each new one answers |
| `Chunks.Fetch` | internal/natskv/client.go:1098-1105 | one chunk, asked for again from a new consumer once |
| `Chunks.NextAfterLast` | internal/natskv/client.go:1007-1019 | a consumer made from the last chunk's successor stands before the next chunk |
| `Chunks.Store.PullChunk` | internal/natskv/client.go:1159-1195 | the chunk the consumer stands before and how many are left, or which fault it was |
| `Chunks.Store.CreateConsumer` | internal/natskv/client.go:1007-1019 | a consumer before the first chunk after a sequence |

## Left out

- Ceiling.CeilingWhenAnswered: says of runs without a late create or a lost answer to a withdrawal's record delete that the ceiling holds, and CeilingLimits that either can take a run past it; it does not say of each single run with one of them whether the count goes over, which also depends on what other replicas publish and on when the job cache catches up. The release rule reads a cache as a place in the bucket's history.
- BarrierFollows.CacheIsAPlace: speaks once the cache has heard of the current generation. The release rule reads the job and active caches without a generation check (internal/pgo/caches.go:697-703, 864-870), so it may also read one that still applies buffered entries of the generation before, or the one stray delivery a watcher may make after its connection has come back; those reads are not covered.
- PublicationSafety.LookupFindsBinding: a lookup whose request has another snapshot hash is answered with a mismatch; both answers leave the bucket as it is, and the hash is left out.
- Publish.Publish: a record that does not fit its size bound before its first write, and the time budget of the later writes, are left out.
- Barrier.NextKeeps: one attempt of Caches.Run, whose replays carry live entries and no tombstones.
- Caches.Caches.StartAttempt: which connection an attempt reads from is a parameter of the guarded reads.
- Caches.Caches.Apply: the pulses beside a job entry are in Wakeup, over the same identifiers.
- Caches.Caches.Collections: a page is its records' places; the other fields of a view are copied from the record at that place.
- Walk.WalkCollections: a cursor is the position it names; Cursor proves that different positions have different tokens.
- Cursor.EncodeCursor: decimal nanoseconds for RFC 3339 text, and no base64 around the token.
- Cursor.DecodeCursor: as for Cursor.EncodeCursor.
- Cursor.CursorsDiffer: as for Cursor.EncodeCursor.
- Barrier.GuardedRead: one attempt of Caches.Run; a second attempt under an unchanged generation patches the caches, and is not modelled. A replay delivers the content of the moment its watcher was opened, in any order.
- Refresh.NeverReused: needs a file system on which exclusive creation works, and nobody removing a lock file by hand; an answer that reports an error is taken not to have rotated.
- Deadline.RunRounds: no part of a sample takes longer than the formula allows it, and merging takes no time.
- Wakeup.AnsweredForAReason: a draining replica answers with the record it last read, and a moved generation with an error; both are a request that has left.
- Publisher.Publisher.ReleaseResolved: one pass whose reads are answered from one moment; releases that interleave with it are covered by the machine in Ceiling, not by the class.
- Rounds.Run: the order in which samples come back is a parameter; storing the merged profile, and stopping on a deadline, are left out.
- Chunks.PumpChunks: the chunks of the object do not change while it is read.
- Cursor.CursorRoundTrip: RFC 3339 text is replaced by decimal nanoseconds, and the base64 around the token is left out.
- Listing.ExactlyOnce: identifiers are numbers in the order of their strings.
- ReceiptScope.ScopeIsInjective: the SHA-256 of the text, and its truncation to 32 hexadecimal characters, are left out, so collisions are outside the model.
- Eligibility.Resolve: a Pod's readiness condition is one flag and its containers' ports are one list; no Pod holds the empty address.
- The HTTP answers of create, cancel and replay; their store calls are processes of the machine.
- Slots, overrides, artifacts and the admission gate: no claim of the protocol rests on them.
- Views of an older generation (kvView's checks before and after a call): a refused result is an unavailable one in the machine.
- Backoff, timers and clocks: every wait may end at any step.
- Live beside CachedLive, Override beside Collections: single reads under the same guard.
- Effective policies, configuration loading, and the console: they would add only easy members.
