# A verified model of the MASQUE relay

The relay forwards UDP for clients over QUIC. A restricted relay admits members of Qortal groups
without learning who they are: a member proves membership to the relay's *ticket authority*, is given
blind signatures for up to three tickets, and later presents a ticket on an anonymous connection. Each
hour (an *epoch*) has its own signing key, and tickets of an epoch stop being valid 12 hours after the
epoch begins. This project models that protocol and the code around it and proves what it keeps over
every run:

- the **ticket authority**: keys, challenges, issuance, quota, redemption, pruning, crashes and clocks;
- the **access policy**: the concurrent lookups at the Cores with their slots and failover, the any-of
  decision over groups, the single-flight membership cache, and the expiry timers of a connection;
- the **discovery codec**: the signed announcement in both versions, and the start-up size check;
- **Base58**, and the **ledgers** of tunnels and connections.

## How it is modelled

The concurrent parts are state machines. A run is any sequence of actions; an action is one critical
section, one database transaction or one reading of the clock, and an action that is not enabled
changes nothing. Handlers are told apart by a number and sit in a phase each, so every interleaving is
a run; a restart drops everything that is not in the database; the clock may move forward and, where a
theorem does not say otherwise, back (the clock that timers, cache ages and the expiry of challenges are
measured by only goes on).
The machines are nested: the ticket authority's handlers make their membership calls to the membership
machine inside its state, and that one has the Cores asked by the lookup machine inside its own, so that a
signature can be traced through the cache to the reply of a Core. The relay as a whole joins the authority
and the tunnels where authorize calls redeem, so that a dial can be traced to a ticket and on to such a
signature. Steps log events, and the theorems
speak about the log and the states of *every* run. The code that updates maps, buckets and counters in
place is written as classes and methods with loops, and each method is proved against the very function
the state machine steps with.

| module | what is in it |
|---|---|
| `Clock`, `Options`, `Sets`, `Sums` | readings of the clock, missing values, finite sets, weighted sums |
| `TicketStore`, `TicketProtocol` | the transactions and the state machine of the ticket authority |
| `TicketAuthority`, `RecordText` | the authority as an object; rows as text, the cursor order, both pruning loops |
| `TicketKeys`, `TicketRedemption`, `Duplicates`, `TicketQuota`, `QuotaReset`, `TicketForgery`, `TicketTrace`, `TicketIssuance`, `TicketGrants`, `TicketBounds` | safety over whole runs |
| `TicketCompleteness`, `ChallengeCompleteness`, `IssuanceCompleteness` | good tickets are redeemed, good requests get challenges, good proofs are signed |
| `CoreLookups`, `CoreAnswers`, `CoreProgress`, `Membership`, `MembershipCache`, `MembershipCompleteness` | lookups at the Cores, what their answers rest on, that they go on; the cache over them, what it keeps, and that members are told |
| `AccessPolicy`, `ConnectionGrant`, `Ledgers` | the access policy as an object, connections and tunnels |
| `Relay` | the authority and the tunnels joined: from a dial to a membership |
| `Varints`, `Discovery`, `Announcement`, `Base58` | the codecs |

Cryptography, hashing and the parsing of external formats are functions in a parameter (`Env`,
`Verifier`, `Identity`), about which nothing is assumed except where a lemma says so in its `requires`.
What is assumed of the surroundings:

- blind signatures (RSABSSA-SHA384-PSS-Deterministic, sections 4 and 5 of RFC 9474): where a lemma says
  `Unforgeable`, under no key have more distinct messages been verified than signatures released;
- key generation: a generated key is new (`candidate !in minted`). That no key serves two rows, the second
  half of `OneKeyForEver`, rests on it;
- the database: its statistics may count rows already deleted, never fewer than there are;
- announcements: a signature is 64 bytes and verifies under the key of the identity that made it.

## Where the code does not do what is promised

- `ACCESS.md:76-77` says that a duplicate redemption fails even concurrently. `Duplicates.AnyTicketTwice`
  shows the opposite for every ticket: from any run with a clock that never goes back, in any hour of an
  unspent authentic ticket of any epoch, two requests can interleave so that both redeem it. Both accept
  it, one commits, and the other commits once the ticket has expired, where its own pruning has deleted the
  marker. No signature has to be forged for that. `Duplicates.DuplicateCommitsIff` says exactly when a
  duplicate goes through, in every run and for every clock: if and only if the bucket is not full and the
  hour of its transaction, or that of a pruner that has committed since the last redemption, has reached
  epoch + 12. With a clock that never goes back this is never before that hour (`AtMostOnceBeforeExpiry`),
  and the late duplicate gains nothing: its deadline has passed (`TicketGrants.OneLiveGrantPerTicket`). With
  a clock that is set back it can be before (`Duplicates.SetBackTwice`), though not if a redemption is a
  single step (`NeverTwiceWhenWhole`).
- `ACCESS.md:82` says that each account can obtain 24 tickets per hour. It cannot obtain more with a clock
  that never goes back (`TicketQuota.AtMost24PerAccount`), nor wherever the clock jumps if a redemption is a
  single step (`AtMost24WhenWhole`). In general it cannot unless the hour is read for descriptor after a
  redemption has deleted the account's counter, while both the clock and the high-water mark are before
  epoch + 12 (`AtMost24UnlessReopened`); and then it can. A redemption does not move the mark, so that a jump
  of the clock around it goes undetected: `QuotaReset.SetBackIssuesMore` continues any state in which a batch
  is approved and a ticket about to be redeemed by such a jump, and the batch is signed on top of whatever had
  been issued. `QuotaReset.ChargeSinceCommitsIff` says exactly what counts, in every run and for every clock:
  what was charged since a pruner last reached the record.
- `internal/relay/access.go:340-341` says that an old timer must not cancel a renewal. Its check and its
  close are two steps: `ConnectionGrant.RenewalBetweenCheckAndClose` gives a run in which a renewal
  falls between them and the renewed connection is closed. `TimerClosesIffCurrent` and
  `OvertakenTimerNeverCloses` say exactly when: a timer closes if and only if its check ran before the
  renewal. A client that renews before its deadline is safe (`RenewedInTime`).

## Model

| member | source | states |
|---|---|---|
| `Clock.ExpiryIsAnHourBoundary` | internal/relay/tickets.go:416 | a ticket has reached its expiry in milliseconds exactly when the hour of the clock has reached epoch + 12, for every epoch and reading |
| `TicketKeys.OneKeyForEver` | internal/relay/tickets.go:88-163 | over every run, with restarts, policy changes and clock rollbacks, two keys returned are equal if and only if they were returned for the same policy revision and epoch |
| `TicketKeys.CacheAgreesWithStore` | internal/relay/tickets.go:133-160 | in every reachable state cached keys equal the stored rows of all unexpired epochs, and at most 12 are cached |
| `TicketKeys.HighWaterRises` | internal/relay/tickets.go:95-104 | the persisted hour never decreases along any run |
| `TicketKeys.ExpiredKeysAreGone` | internal/relay/tickets.go:105-127 | in every reachable state no signing key is stored for an epoch the mark is 12 hours past, nor for one it has not reached |
| `TicketKeys.DescribeCaches` | internal/relay/tickets.go:133-160 | a key that is returned is cached, and of the others exactly those of unexpired epochs stay cached |
| `TicketKeys.DescriptorAnswersIff` | internal/relay/tickets.go:88-155 | in every reachable state descriptor answers if and only if the hour read is not behind the mark, the epoch is one of the last 12 hours and is the current one or one a key was returned for before; that very key comes back |
| `TicketKeys.RunKeeps` | internal/relay/tickets.go:88-163 | the invariant behind these: a returned key stays in its row until the mark is 12 hours past its epoch, and nothing else is ever in rows or cache |
| `TicketRedemption.AtMostOnceBeforeExpiry` | internal/relay/tickets.go:405-467 | with a clock that never goes back, any interleaving and any crashes, of two redemptions of one epoch and message the later one committed in hour epoch + 12 or after |
| `TicketRedemption.NeverTwiceWhenWhole` | internal/relay/tickets.go:88-132 | with redemptions taken as single steps with one reading of the hour, no ticket is ever redeemed twice, wherever the clock jumps |
| `TicketRedemption.SpendCommitsIff` | internal/relay/tickets.go:432-462 | the redemption transaction commits if and only if the bucket does not report itself full and the marker is absent or old enough to be pruned by that very transaction |
| `TicketRedemption.DuplicateCommitsIffExpired` | internal/relay/tickets.go:432-462 | with a clock that never goes back, in every reachable state, a second redemption goes through if and only if the transaction's hour has reached the expiry hour (and the bucket is not full) |
| `TicketRedemption.DescribeSpares` | internal/relay/tickets.go:98-128 | descriptor deletes markers and quota rows only together with moving the mark forward to the hour it read, and then exactly the expired ones |
| `TicketRedemption.DescribedIsLive` | internal/relay/tickets.go:91-104 | a key is returned only once the mark equals the hour read, for an unexpired epoch |
| `Duplicates.DuplicateCommitsIff` | internal/relay/tickets.go:95-128 | for every run and every clock: after the last redemption of a ticket and any steps since, a second one goes through if and only if the bucket is not full and the hour of its transaction, or of a pruner that committed since, has reached epoch + 12 |
| `Duplicates.MarkerRun` | internal/relay/tickets.go:105-127 | a marker is there exactly as long as no pruner that reached its expiry hour has committed, whatever the clock does |
| `Duplicates.TicketRedeemedTwice` | internal/relay/tickets.go:432-462 | from any run in which two handlers have accepted an unspent ticket of any epoch, a continuation that redeems it twice without setting the clock back, and without a forgery |
| `Duplicates.AnyTicketTwice` | internal/relay/tickets.go:405-467 | from any forward run and for every authentic unspent ticket in its hours, two requests that interleave so that both redeem it, the second once it has expired |
| `Duplicates.SetBackTwice` | internal/relay/tickets.go:95-128 | with a clock that is set back the second redemption can fall in an hour in which the ticket has not expired |
| `TicketQuota.AtMost24UnlessReopened` | internal/relay/tickets.go:368-400 | wherever the clock jumps, across restarts, policy changes and concurrent handlers, no account is ever issued more than 24 signatures for one epoch, unless the hour is read for descriptor after a redemption committed at hour epoch + 12 or past it, with both mark and clock before that hour |
| `TicketQuota.AtMost24PerAccount` | internal/relay/tickets.go:368-400 | with a forward clock no account is ever issued more than 24 signatures for one epoch |
| `TicketQuota.AtMost24WhenWhole` | internal/relay/tickets.go:368-400 | nor, wherever the clock jumps, with redemptions taken as single steps |
| `TicketQuota.IssuedWithinCharged` | internal/relay/tickets.go:370-402 | over every run and for every clock, what is issued against a quota record, and what handlers may yet issue, was charged to it before |
| `QuotaReset.CounterRun` | internal/relay/tickets.go:368-380 | over every run and for every clock, until a pruner that reached its expiry hour has committed, a counter is what it was plus what was charged since |
| `QuotaReset.PrunerResets` | internal/relay/tickets.go:435-453 | such a pruner, descriptor or a redemption, leaves no counter |
| `QuotaReset.ChargeSinceCommitsIff` | internal/relay/tickets.go:368-383 | for every run and every clock: a batch is granted if and only if, with what was charged to the record since the last such pruner, it is within 24, and the account has a row or the bucket is not full |
| `QuotaReset.SetBackIssuesMore` | internal/relay/tickets.go:368-453 | from any state with an approved batch and a ticket about to be redeemed, a continuation in which the clock is ahead for that redemption and set back, and the batch is signed whatever had been issued to the account |
| `TicketForgery.RedemptionsWithinSignatures` | internal/relay/tickets.go:405-467 | in unforgeable logs with a forward clock, redemptions of an epoch before its expiry never outnumber the signatures released for that epoch |
| `TicketForgery.EarlyAreDistinct` | internal/relay/tickets.go:454-462 | redemptions before expiry are as many as the distinct pairs of key and message among them |
| `TicketTrace.TraceRun` | internal/relay/tickets.go:252-467 | over every run, every signature, redemption and phase of a handler goes back to the key, challenge, proof and membership reply it rests on, earlier in the log |
| `TicketTrace.RedeemedIsVetted` | internal/relay/tickets.go:415-428 | whatever is redeemed was found earlier, before its expiry hour, to be an authentic ticket bound to pin, policy and epoch under a key returned for that epoch |
| `TicketTrace.ValidIffAuthentic` | internal/relay/tickets.go:416-428 | redeem's checks accept exactly the authentic tickets of the key they are made with |
| `TicketIssuance.IssuanceHasItsChallenge` | internal/relay/tickets.go:307-343 | every batch goes back to a challenge made earlier with the same nonce, batch binding and epoch, and to a signed proof for this relay's pin, policy and batch that names the challenge's expiry on the wall clock and was accepted no later than a minute after the challenge was asked for, by the clock that only goes on |
| `TicketIssuance.SignedUnderClaimedKey` | internal/relay/tickets.go:278-402 | every batch is of one to three and is signed under the very key of the descriptor the client blinded it for, across both calls of descriptor |
| `TicketIssuance.OneBatchPerChallenge` | internal/relay/tickets.go:335-343 | two batches never go back to one challenge, and no challenge is ever taken twice |
| `TicketIssuance.PresentingConsumes` | internal/relay/tickets.go:336-339 | presenting a nonce removes it, and nothing else, before anything about the proof is looked at |
| `TicketIssuance.IssuanceIsConfirmed` | internal/relay/tickets.go:351-367 | every batch rests on a reply heard earlier from a configured Core, in full, of at most 8192 bytes, with status 200 and exactly one row, for that very address and true, about an allowed group, to a request started no earlier than the epoch's first instant, through cache, waiters and re-check |
| `TicketGrants.UntilBounds` | internal/relay/tickets.go:466 | with two readings of a clock the deadline is the expiry less the time between the readings, rounded up by less than 1 ms, and not ahead if the ticket had expired by the first reading |
| `TicketGrants.UntilIsExpiry` | internal/relay/tickets.go:466 | the deadline lies as far from the first reading, on whatever clock it was read, as the expiry of the epoch from the second, to within 1 ms |
| `TicketGrants.DeadlineIsExpiry` | internal/relay/tickets.go:466 | over every run and for every clock, every deadline granted lies as far ahead of the first reading, on the wall clock and on the one that only goes on, as the epoch's expiry lies ahead of the second, to within 1 ms: neither earlier nor later |
| `TicketGrants.RedeemedIsGranted` | internal/relay/tickets.go:466 | in every run a handler that has redeemed a ticket and then reads the clock twice, with any bystanders between, is given that deadline, reckoned from the very readings |
| `TicketGrants.GrantedIsRedeemed` | internal/relay/tickets.go:415-466 | over every run and for every clock, what redeem returns a deadline for was redeemed earlier, and before that found to be an authentic ticket of its epoch under a key returned for that epoch; the deadline is the same time away on the wall clock and on the one that only goes on |
| `TicketGrants.DeadlineWithinCheck` | internal/relay/tickets.go:351-367 | any deadline granted for an epoch lies before any membership check that tickets of that epoch were issued on plus 12 h plus 1 ms |
| `TicketGrants.OneLiveGrantPerTicket` | internal/relay/tickets.go:432-467 | however redemptions interleave, of two grants for one ticket at least one has already passed when it is given |
| `TicketBounds.AlwaysBounded` | internal/relay/tickets.go:316-461 | in every reachable state at most 256 challenges, 100000 markers and 100000 quota rows |
| `TicketBounds.ChallengeMadeIff` | internal/relay/tickets.go:314-328 | a challenge is made if and only if fewer than 256 others have not expired by the clock that only goes on; it holds the batch binding, epoch and expiry of its request, on both clocks, expired ones are gone and the others untouched |
| `TicketBounds.RestartForgets` | internal/relay/tickets.go:62-86 | a restart drops challenges, cached keys, handlers, the lock and what the access policy remembers, and keeps the database |
| `TicketCompleteness.GoodTicketIsRedeemed` | internal/relay/tickets.go:405-467 | after any run and with any bystanders between its steps, an unspent valid ticket of a key once returned is redeemed by a handler that commits before hour epoch + 12, unless the bucket reports itself full, and the handler goes on to its deadline |
| `TicketCompleteness.KeyIsFoundAgain` | internal/relay/tickets.go:92-155 | a key once returned is found again as long as its epoch has not expired |
| `TicketCompleteness.MarkersRun` | internal/relay/tickets.go:454-462 | every stored marker goes back to a redemption in the log |
| `TicketCompleteness.AtOnceIsSteps` | internal/relay/tickets.go:405-467 | a redemption taken as a single step writes and logs exactly what its five steps with nothing in between do, whether it succeeds or not |
| `IssuanceCompleteness.GoodProofIsSigned` | internal/relay/tickets.go:278-402 | after any run and with any bystanders between its steps, a request with a valid proof over a live challenge, membership confirmed in the epoch's own time (at once, or when asked again after an older answer) and quota left is answered with signatures for the whole batch under the key of its epoch |
| `ChallengeCompleteness.GoodRequestGetsChallenge` | internal/relay/tickets.go:278-328 | after any run and with any bystanders between its steps, a request with the relay's own descriptor of the hour and one to three blinded messages is given a challenge for its batch, good for 60 s on either clock, if and only if fewer than 256 others have not expired |
| `ChallengeCompleteness.ChallengeIsSignedFor` | internal/relay/tickets.go:278-402 | from a member's first request to the signatures: that challenge, left alone, is the one a proof within its minute and hour is signed for, with any bystanders between all steps of both requests, and the log has its making at the place the signatures name |
| `ChallengeCompleteness.UntouchedRun` | internal/relay/tickets.go:315-339 | over any stretch of a run a challenge stays as it is until it expires, is presented, or the process ends |
| `IssuanceCompleteness.HandlersCall` | internal/relay/tickets.go:351-359 | a handler calls membership for the address of its proof, and checkGroups itself when its answer was too old |
| `IssuanceCompleteness.AnswerIsTaken` | internal/relay/tickets.go:351-359 | a handler that has taken its answer may call again |
| `IssuanceCompleteness.ChargeCommitsIff` | internal/relay/tickets.go:370-380 | the quota transaction commits if and only if the batch stays within 24 and the account has a row or the bucket is not full; it adds exactly the batch to that row and touches no other |
| `TicketStore.KeyWriteCommutes` | internal/relay/tickets.go:146 | storing a new key commutes with the two transactions that do not wait for descriptor's lock |
| `RecordText.PaddedOrder` | internal/relay/tickets.go:369 | on numerals padded to one width, byte order is numeric order and equality is equality |
| `RecordText.RowOrder` | internal/relay/tickets.go:431 | of two rows in byte order the earlier one's epoch is not the larger |
| `RecordText.BothReadTheEpoch` | internal/relay/tickets.go:109-120 | splitting at colons and cutting off 12 digits both read a record's own epoch off its row |
| `RecordText.PruneAll` | internal/relay/tickets.go:105-127 | the full scan keeps exactly the rows that have not expired, and fails if and only if some row cannot be read |
| `RecordText.PruneOrdered` | internal/relay/tickets.go:435-453 | the loop with the early exit cuts off exactly the leading run of expired rows |
| `RecordText.PrunersAgree` | internal/relay/tickets.go:435-453 | for the same hour both loops keep the same rows, those of the records still live, for all epochs of 12 digits; neither fails |
| `RecordText.KeyRowEpoch` | internal/relay/tickets.go:134 | the scan of the key bucket reads the epoch behind a revision without colons |
| `TicketAuthority.CursorIsInOrder` | internal/relay/tickets.go:437-438 | the order in which the cursor meets rows lists the records by epoch |
| `TicketAuthority.Authority.constructor` | internal/relay/tickets.go:70 | an opened authority has the database it found and nothing in memory |
| `TicketAuthority.Authority.Descriptor` | internal/relay/tickets.go:88-163 | the method in place changes database and cache, and returns a key, exactly as the state machine's step |
| `TicketAuthority.Authority.Advance` | internal/relay/tickets.go:95-130 | a later hour is recorded and exactly the expired rows of the three buckets go |
| `TicketAuthority.Authority.ScanRecords` | internal/relay/tickets.go:106-126 | the full scan leaves exactly the live records |
| `TicketAuthority.Authority.ScanKeys` | internal/relay/tickets.go:106-126 | the full scan leaves exactly the live keys |
| `TicketAuthority.Authority.TrimCache` | internal/relay/tickets.go:156-160 | exactly the keys of unexpired epochs stay cached |
| `TicketAuthority.Authority.CutRecords` | internal/relay/tickets.go:438-452 | the loop with the early exit, in cursor order, leaves exactly the live records |
| `TicketAuthority.Authority.Redeem` | internal/relay/tickets.go:432-462 | the transaction in place is the state machine's step; a failure rolls back |
| `TicketAuthority.Authority.Charge` | internal/relay/tickets.go:370-380 | the quota transaction in place is the state machine's step |
| `TicketAuthority.Authority.Offer` | internal/relay/tickets.go:315-327 | the challenge section in place is the state machine's step |
| `TicketAuthority.Authority.Take` | internal/relay/tickets.go:336-339 | the nonce is gone, found or not, and the others stay |
| `Membership.OneLookupPerAddress` | internal/relay/access.go:153-199 | in every reachable state an address is pending if and only if exactly one caller leads its lookup, over an open channel; at most 128 pending and 4096 cached |
| `Membership.ArrivalDecides` | internal/relay/access.go:155-175 | when exactly a caller is answered from the cache, waits, is refused or leads a lookup |
| `Membership.NoLostWakeup` | internal/relay/access.go:160-167 | a waiting caller waits on a closed channel or on the one the leader of its address holds |
| `Membership.FinishFreesWaiters` | internal/relay/access.go:194-196 | when a lookup ends, every caller waiting for that address can go on at once |
| `Membership.VerdictsAreLookedUp` | internal/relay/access.go:153-199 | every verdict returned was given earlier by a lookup for the same address; one from the cache was checked less than 30 s before; only verdicts are ever cached, never errors |
| `Membership.AnswersAreSound` | internal/relay/access.go:153-286 | whoever asks, through the cache or past it, is told of a membership only if a configured Core has said so in a well-formed reply about that address and an allowed group, to a request started at the very time given; and of none only if a Core has said so for every allowed group |
| `Membership.CacheBounded` | internal/relay/access.go:178-193 | storing a verdict never takes the cache past 4096 |
| `MembershipCache.FinishStores` | internal/relay/access.go:177-197 | in every reachable state, when a lookup ends its answer is returned, and a verdict is stored under its address, with the others kept as above; an error changes nothing |
| `MembershipCache.AnsweredFromCache` | internal/relay/access.go:155-192 | over every run a caller who looks less than 30 s after the time of a verdict a lookup has ended with, the entry not evicted since, is answered with it at once, opens no round and does not wait |
| `MembershipCache.AccessClock` | internal/relay/access.go:156 | the clock that cache ages are measured by goes on only by its own ticks |
| `MembershipCompleteness.MemberIsTold` | internal/relay/access.go:153-286 | after any run, a caller about an address neither pending nor freshly cached, with room and a slot free, and a Core that replies that it is in an allowed group, ends with that answer as of the time the request was started, and it is cached |
| `MembershipCompleteness.DirectIsTold` | internal/relay/access.go:201-229 | a caller past the cache opens a round of its own and is told its result |
| `MembershipCompleteness.CallersComeAndGo` | internal/relay/access.go:160-167 | a caller that waits may be cancelled, one that is done goes and may call again |
| `AccessPolicy.CheckGroups` | internal/relay/access.go:219-228 | the receiving loop gives a membership if any result is one (and then that very result), else an error if any is unresolved, else no membership as of now |
| `AccessPolicy.OrderDoesNotMatter` | internal/relay/access.go:219-228 | the verdict is the same for every order of arrival |
| `CoreLookups.SlotsAreHeld` | internal/relay/access.go:201-286 | with any number of concurrent lookups, in every reachable state the slots taken are as many as the lookups between taking and giving back, at most 16, and the places of a round as many as its lookups, at most 4; giving back never blocks and nothing ends holding one |
| `CoreLookups.EndpointsAreUnblamed` | internal/relay/access.go:231-292 | over every run each lookup chooses exactly the configured endpoints that failed no lookup in the 5 s before, in the configured order, or all of them if each did; an endpoint is demoted if and only if it failed one in the 5 s before |
| `CoreAnswers.FirstGoodReplyDecides` | internal/relay/access.go:233-285 | in every reachable state a lookup that is over once chose its endpoints, and as it should: those that had failed no lookup in the 5 s before, in the configured order, or all if each had; it has tried them in turn, and its answer is the row of the first deciding reply; without one there is no verdict, and unless its context ended all were tried |
| `CoreAnswers.VerdictIffReply` | internal/relay/access.go:246-285 | over every run a lookup ends with a verdict as of a time if and only if its last try, started then, had a reply in full of at most 8192 bytes, with status 200 and exactly one row, for that address, that says so; every other try had none such, and its endpoint was reported unless the lookup's own context had ended |
| `CoreAnswers.BlamedHasFailed` | internal/relay/access.go:253-283 | over every run an endpoint is reported only after a request to it has failed in one of these ways |
| `CoreLookups.FormedIffDecisive` | internal/relay/access.go:271-282 | the checks on a reply let exactly the deciding ones through, and by what they say |
| `CoreProgress.LookupGoesOn` | internal/relay/access.go:246-285 | in every reachable state every lookup has a step that is due and not refused: choosing, taking one of 16 slots when one is free, any end of its request, giving the slot back, the judgement, running out of endpoints, sending the answer |
| `CoreProgress.SlotsComeBack` | internal/relay/access.go:247-270 | in every reachable state a slot is free or some lookup holds one and goes on |
| `CoreProgress.RoundGoesOn` | internal/relay/access.go:201-229 | in every reachable state every allowed group of a round waits, is being looked up or has its result, and a round without a result can receive, conclude, or has a lookup that goes on or can begin |
| `CoreProgress.RoundConcludes` | internal/relay/access.go:219-228 | a membership settles a round when it is received; with all results received and no membership it ends without a verdict if and only if one of them had none |
| `CoreProgress.ContextMayEnd` | internal/relay/access.go:207-250 | a context that ends cuts a waiting lookup short, and gives a waiting group an error |
| `CoreAnswers.RoundsAreSound` | internal/relay/access.go:201-229 | over every run a round says member only by a reply for that address and an allowed group, and not a member only if every allowed group has said so |
| `TicketTrace.StartedNow` | internal/relay/access.go:252 | the time a request to a Core is said to have started is the reading of both clocks when it takes its slot |
| `CoreLookups.HealthyExactly` | internal/relay/access.go:235-241 | exactly the endpoints that are not demoted are kept |
| `CoreLookups.HealthyInOrder` | internal/relay/access.go:233-241 | they are kept in configured order |
| `CoreLookups.HealthyIsDrawn` | internal/relay/access.go:233-241 | the list kept is the configured one read at ascending positions |
| `CoreLookups.HealthyAtExactly` | internal/relay/access.go:233-241 | those positions are exactly the ones that hold an endpoint not demoted |
| `AccessPolicy.Policy.PickBases` | internal/relay/access.go:235-245 | the loop picks the healthy endpoints, or all if there is none |
| `AccessPolicy.CheckGroup` | internal/relay/access.go:246-285 | the loop decides by the first reply in full, of at most 8192 bytes, with status 200 and exactly one row, for that address, by what it says; it reports to coreFailed exactly the endpoints before it whose try was not ended by its own cancellation, and stops without a verdict when it gets no slot |
| `AccessPolicy.Policy.CoreFailed` | internal/relay/access.go:288-292 | the endpoint is demoted for 5 s and no other |
| `AccessPolicy.Policy.Look` | internal/relay/access.go:155-175 | the first section in place decides and registers as the state machine's step |
| `AccessPolicy.Policy.Finish` | internal/relay/access.go:177-196 | the second section in place stores, evicts, clears and wakes as the state machine's step: the address maps to the verdict, below 4096 entries every other one stays, at 4096 exactly those of 30 s or more go, and if there are none one entry |
| `AccessPolicy.Policy.DropStale` | internal/relay/access.go:180-184 | exactly the entries checked less than 30 s before stay |
| `ConnectionGrant.OpenConnectionsAreWatched` | internal/relay/access.go:305-345 | outside the middle of a renewal every open connection has a timer of the current generation for its exact deadline, 15 s after accept or the last ticket's; at most 8 redeem calls since the last success |
| `ConnectionGrant.TimerClosesIffCurrent` | internal/relay/access.go:339-345 | a fired timer goes on to close if and only if its generation is current at its check; it never fires early |
| `ConnectionGrant.OvertakenTimerNeverCloses` | internal/relay/access.go:339-345 | a timer passed by a renewal before its check never closes the connection, whatever comes after; one already past its check does |
| `ConnectionGrant.RenewedInTime` | internal/relay/access.go:339-345 | a renewal made before the old deadline is never cancelled by the old timer, whatever comes after |
| `ConnectionGrant.FailedRenewalsChangeNothing` | internal/relay/access.go:384-399 | over any stretch of a run without a redeemed ticket, grant, deadline and timers stand as they were |
| `ConnectionGrant.RenewalBetweenCheckAndClose` | internal/relay/access.go:339-345 | for every later deadline, a run in which the old timer closes the renewed connection |
| `ConnectionGrant.ConnectionAuthorization.constructor` | internal/relay/access.go:316-320 | a new connection has the first grant of 15 s |
| `ConnectionGrant.ConnectionAuthorization.Authorize` | internal/relay/access.go:373-412 | on an admitted connection a request with a proof is 403 and changes nothing; one within the grant that asks for no renewal is let through at no cost; without a ticket it is 401; a ticket is counted, is 429 from the ninth try since the last success on, and else renews grant, deadline and timer if it is redeemed and is 403 if not |
| `ConnectionGrant.AuthorizeRequest` | internal/relay/access.go:364-412 | the same from the start: a public relay lets everything through, a missing connection or authority is 503, and nothing changes in either case |
| `ConnectionGrant.AnsweredIff` | internal/relay/access.go:373-412 | read by the answer: when exactly a request is let through, 401, 429 or 403, and that nothing but a redeemed ticket changes grant or timer |
| `ConnectionGrant.RequestDecides` | internal/relay/access.go:373-399 | in every reachable state a request gets as far as redeeming if and only if it has no proof, is not within the grant or asks for a renewal, has a ticket and fewer than 8 tries were made since the last success; others change nothing but the count of tries |
| `ConnectionGrant.OverdueCloses` | internal/relay/access.go:339-345 | in every reachable state outside the middle of a renewal, an open connection past its deadline is closed when its timer runs |
| `ConnectionGrant.EndedIsQuiet` | internal/relay/access.go:329-334 | the timer of a connection that has ended is stopped unless it has fired |
| `Ledgers.TunnelLedger` | internal/relay/server.go:290-312 | in every reachable state the total equals the sum of the counts and the number of handlers between acquire and release, each count those of its source; caps hold; the guards of release never bite |
| `Ledgers.AcquiresIff` | internal/relay/server.go:290-299 | in every reachable state acquire succeeds if and only if the server is open, fewer handlers hold a tunnel than the limit and fewer than 8 under the same source |
| `Ledgers.LeaveGivesBack` | internal/relay/server.go:301-312 | a request that leaves is gone and gives back exactly the tunnel it held, if any |
| `Ledgers.DialedIff` | internal/relay/server.go:147-195 | after any run a new request has its target dialed if and only if it is let through, the target is allowed, the server is open, fewer tunnels are held than the limit and fewer than 8 under its ticket or its host |
| `Ledgers.LetThroughIff` | internal/relay/access.go:364-412 | when exactly a request is let through, that otherwise it goes away, and what becomes of its connection's grant and count of tries |
| `Ledgers.NoProofIsLetThrough` | internal/relay/access.go:375-379 | over every run of a restricted relay no request with an identity-bearing proof is let through |
| `Ledgers.ClosedIffShutDown` | internal/relay/server.go:223-231 | the server is closed if and only if it was shut down |
| `Ledgers.ConnectionsStart` | internal/relay/access.go:316-320 | a connection starts without a grant, and only by being accepted |
| `Ledgers.DialsAreCovered` | internal/relay/server.go:147-195 | every dial is to an allowed target, with a tunnel acquired, counted under its ticket or else its host, and not yet released, for a request authorize had let through: in groups mode one without a proof, by a ticket it bore and that was redeemed for it, or by one redeemed on the same connection before, not expired at that reading, with no renewal asked |
| `Ledgers.NoTunnelAfterShutdown` | internal/relay/server.go:293 | once closed, no later step of any run acquires a tunnel |
| `Ledgers.ConnectionLedger` | internal/relay/access.go:305-335 | in every reachable state the connection counts agree with the open connections, within 512 and 32 per source, and no decrement goes below zero |
| `Ledgers.AdmitsIff` | internal/relay/access.go:305-315 | in every reachable state a connection is admitted if and only if fewer than 512 are open and fewer than 32 from its source |
| `Ledgers.EndedIsGone` | internal/relay/access.go:321-328 | a connection that ends is gone and the others stay |
| `Ledgers.DroppedIsGivenBack` | internal/relay/access.go:321-328 | the two ways of giving back agree wherever there is something to give back |
| `Ledgers.Server.Acquire` | internal/relay/server.go:290-299 | acquire in place is the state machine's step |
| `Ledgers.Server.Release` | internal/relay/server.go:301-312 | release in place is the state machine's step |
| `Ledgers.Server.Shutdown` | internal/relay/server.go:223-231 | after it nothing can be acquired; the counts stay |
| `Relay.DialRestsOnMembership` | internal/relay/access.go:364-412 | over every life of the relay, with reboots and whatever the clock does, in groups mode and if no ticket was forged: every dial is for a request let in by a ticket granted to the running process, redeemed before and verified before that under a key of its epoch, under which a batch had been signed for that epoch on a configured Core's word that its account is a member of an allowed group |
| `Relay.DialsAreLetIn` | internal/relay/access.go:395-411 | whether or not tickets can be forged, every dial in groups mode is for a request let in by a grant redeem returned to the running process, at once or before the deadline it set, and counted under that ticket's digest |
| `Relay.RenewalsWithinGrants` | internal/relay/access.go:395-402 | a ticket renews authorizations no more often than it was granted |
| `Relay.GrantIsGoodForADial` | internal/relay/access.go:364-412 | after any life of the relay, a grant redeem has not returned yet, when returned for a new request, has the target dialed if and only if the request is one authorize lets through, the target is allowed, the server open and neither limit reached |
| `Relay.BootForgets` | internal/relay/server.go:130-146 | a new start of the process is as it is set up then, with no tunnel, connection or grant left of the one before, and the same database |
| `Relay.OneClock` | internal/relay/access.go:380 | the deadlines the authority sets and the time the connections compare them with are of one clock, in every life |
| `Relay.AuthorityRuns` | internal/relay/access.go:395 | whatever happens around it, the authority goes through a run of its own, so that every theorem about its runs holds in the relay |
| `Varints.ReadOfVarint` | scripts/masque_discovery_codec.py:64-75 | what is written as a varint is read back |
| `Varints.VarintOfRead` | scripts/masque_discovery_codec.py:64-75 | what is read as a varint is what writing its value gives, byte for byte |
| `Discovery.AcceptedIsLayout` | scripts/masque_discovery_codec.py:43-84 | every packet decode accepts is, up to its signature, the layout of the record returned, with a signature that verifies and an expiry in the window |
| `Discovery.SignedUnderItsVersion` | scripts/masque_discovery_codec.py:54-62 | every accepted packet is signed, under the key of its identity, over its own version's domain, letter by letter, and then all of it but the signature |
| `Discovery.VersionsSignApart` | scripts/masque_discovery_codec.py:54-62 | nothing signed for one version is also signed for the other |
| `Discovery.LayoutIsAccepted` | scripts/masque_discovery_codec.py:43-84 | every well-shaped record, laid out, signed, within the budget and current, decodes to itself |
| `Discovery.Canonical` | scripts/masque_discovery_codec.py:43-84 | two accepted packets with equal records have identical bytes before the signature |
| `Announcement.RoundTrip` | scripts/masque_discovery_codec.py:10-84 | whatever encode sends, decode gives back with the groups sorted, for both versions and address families |
| `Announcement.Encode` | scripts/masque_discovery_codec.py:10-41 | the encoder in place gives the specified bytes, or refuses with the first reason in its order |
| `Announcement.Check` | scripts/masque_discovery_codec.py:11-33 | the checks in their order find the first thing wrong with an offer |
| `Announcement.AcceptedIffNotRefused` | scripts/masque_discovery_codec.py:11-33 | an offer has all the properties the decoder relies on if and only if nothing is found wrong with it |
| `Announcement.CheckName` | scripts/masque_discovery_codec.py:17-19 | the loop over a name accepts exactly 1 to 128 allowed characters |
| `Announcement.DistinctSize` | scripts/masque_discovery_codec.py:13 | a list has as many distinct elements as elements if and only if nothing repeats |
| `Announcement.PackGroups` | scripts/masque_discovery_codec.py:22-27 | the nested loops write the canonical varints in order |
| `Announcement.Prepare` | scripts/masque_discovery_codec.py:12-29 | groups sorted and the header of the version and address family |
| `Announcement.Decode` | scripts/masque_discovery_codec.py:43-84 | the decoder in place returns the specified record or refuses |
| `Announcement.TakeVarint` | scripts/masque_discovery_codec.py:66-73 | the loop over at most five bytes reads the specified value |
| `Announcement.TakeGroups` | scripts/masque_discovery_codec.py:64-75 | the outer loop reads the specified list |
| `Announcement.CountGroupBytes` | internal/relay/server.go:112-119 | the start-up loop counts exactly the bytes of the packed groups |
| `Announcement.Fits` | internal/relay/server.go:112-128 | start-up goes on if and only if the predicted size is within 316 |
| `Announcement.StartAgreesWithEncode` | internal/relay/server.go:112-128 | for every configuration encode accepts, the predicted size is the packet's length, and start-up refuses exactly when encode would for size |
| `Announcement.ShortNamesFit` | internal/relay/server.go:126 | a name of at most 19 bytes with at most 16 groups fits in either version and address family |
| `Announcement.PackedSorted` | scripts/masque_discovery_codec.py:12 | sorting the groups does not change how many bytes they take |
| `Base58.RoundTrip` | internal/relay/access.go:414-459 | every string of 1 to 73 bytes, leading zeros included, encodes within 100 letters and decodes back |
| `Base58.DecodeEncoded` | internal/relay/access.go:416-459 | for byte strings of any length, decoding the encoding gives them back if and only if there is a byte and the text has at most 100 letters |
| `Base58.EncodeDecoded` | internal/relay/access.go:416-459 | whatever decodes re-encodes to the same text |
| `Base58.ConvertBack` | internal/relay/access.go:416-459 | converting a numeral between any two bases and back gives it back, leading zeros included |
| `Base58.PowersAt73` | internal/relay/access.go:417 | 256^73 is at most 58^100 |
| `Base58.Encode` | internal/relay/access.go:441-459 | the division loop and the final reversal give the specified text |
| `Base58.LowDigits` | internal/relay/access.go:445-448 | the division loop gives the letters least significant first |
| `Base58.Turn` | internal/relay/access.go:455-457 | swapping from both ends reverses |
| `Base58.Decode` | internal/relay/access.go:416-440 | the Horner loop and the leading ones give the specified bytes or nothing |

## Left out

- Cryptography and hashing: RSA blind signing, Ed25519, SHA-256, RIPEMD-160 and X.509 are functions in a parameter; proofs and tickets are accepted by abstract predicates.
- Authorize in the tunnel machine is one step, taken when redeem returns; the steps of a redemption are the authority's, and those between them and the connection's timers are in `ConnectionGrant`, where what redeem returns is a parameter.
- JSON, base64 and hexadecimal parsing, size limits on requests and HTTP methods: a request is a value that has been parsed; a request that cannot be parsed has no effect on any state modelled here.
- The database's internals: a transaction is atomic and durable, its cursor walks a snapshot in byte order, and `Stats().KeyN` is any number not below the rows that are live.
- The limit of 8 concurrent requests to the ticket authority: a request beyond it is refused before it does anything.
- The contexts and timeouts of lookups: a context may end at any time, so that any lookup may be cut short; that it ends after 6 s at the latest is not modelled.
- `TicketProtocol.DoDescriptor`: the transactions of one call of descriptor are one step of the machine, since its lock excludes other calls; `KeyWriteCommutes` is why the other transactions cannot tell.
- Clock readings inside one critical section or one request to a Core, and the two readings of `time.Until` and the timer armed with it, are taken as one. The two readings in the deadline of a grant, and those of a handler's different sections, are separate.
- The call of descriptor at start-up (`internal/relay/tickets.go:79-81`): any run may begin with such a call.
- Textual forms of addresses, pins and keys in announcements: they are bytes here; `ipaddress` and `bytes.fromhex` are not modelled.
- `targetAllowed` and `publiclyRoutable`: a predicate in a parameter of the tunnel handler; the case list of address ranges is not restated.
- Configuration loading and validation, certificates, sockets, file permissions, UPnP, the client, the command line, logging, QUIC and datagram forwarding, and the threads of the discovery service.
