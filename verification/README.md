# Classic farm server: a verified model of its concurrent core

This project models the parts of the farm server where many callers, crashes and lost
replies meet durable state, and proves what they keep.

Every store is a table with insert-if-absent and compare-and-swap. A caller of a protocol
is a driver: an automaton that names its next call and takes the reply. A world holds the
tables and any number of drivers, and one event is one call of one driver with a fault of
the environment's choice: answered, refused, or applied with the reply lost. A driver that
is never scheduled again has crashed. Beside each automaton stands the code in its own
imperative form, with its loops and retries, proved to issue the same calls and to end
with the same answer: for any replies, or, for mail claims and accounts, for any steps of
other drivers in between.

What an automaton does is pinned from outside as well: by laws over every run that speak of
tables and answers only, by what an undisturbed call does from every reachable state (the
files ending in Alone), and by what has to happen before an error is reported.

| files | component |
|---|---|
| FriendLists, FriendLinkDriver, FriendLinkWorld, FriendLinkSafety, FriendLinkTheorems, FriendLinkAnswers, FriendLinkNames, FriendLinkSlots, FriendLinkAlone, FriendLinkErrors, FriendLinkRuns, FriendLinkCode | the friend-link saga over lists, relations, rewards and sagas |
| RequestDigest, InteractionSaga, InteractionTheorems, InteractionHolds, InteractionAnswers, InteractionAlone, InteractionCode | the steal and action sagas, one machine |
| Argon2Index, Argon2Fill, Blake2 | Argon2id index arithmetic and block filling, BLAKE2b and H' |
| RouteCache | the copy-on-write route replica |
| DeadlineBook | the deadline heap with lazy deletion |
| Mailbox, MailboxEnds, AwaitHandle | the actor mailbox, its close protocol, and suspended jobs |
| PushHub, PushRuns | pushes held back around a snapshot, and whole connections |
| PlayerIds, AuthSessions, AuthTheorems, AuthAlone, AuthCode | player IDs, session generations and session rows |
| MailClaim, MailClaimTheorems, MailAlone, MailErrors, MailCode, MailPages | mail claims, read and claimed bits, pagination |
| Bytes, Ticket | byte layouts |
| Common | rows, options, faults |

## What the code does not do

Properties that one would expect of the code and that fail are kept as results: each has
the exact condition under which it holds, and most have a concrete run in which it fails.

- EstablishFriendship answers a related pair with the relation ID of this code's own
  aborted saga when that saga is RELEASING or ABORTED as the call reads it, or is turned
  back by the call at a full list: exactly then (`FriendLinkAnswers.AnswerDecidedOnEntry`),
  and it is reachable (`FriendLinkRuns.AbortedCodeAnswersItsOwnId`).
- A finished link saga may leave a reservation behind. A completed one does if and only if
  the entry was not written for it (`FriendLinkSlots.ForwardHoldsIff`), which takes another
  code of the pair (`FriendLinkSlots.LeakedByAnotherLink`). An aborted one does after a
  dropped release error, or because a second caller reserves late
  (`FriendLinkSlots.AbortedHolds`). Each case has a run in FriendLinkRuns.
- An interaction can be aborted although its owner applied it. This takes an owner that
  refuses and applies the same interaction (`InteractionTheorems.TornIff`): on the lease,
  checked before the receipt (`InteractionTheorems.RefusedAfterApplying`), or on the plot,
  because a refusal leaves no receipt (`InteractionTheorems.AppliedAfterRefusing`).
- An aborted interaction can still hold a visitor reservation: after a release call that
  failed, or because the first reservation was made after the record went back
  (`InteractionHolds.AbortedHolds`, `InteractionHolds.AbortedAfterFailedRelease`,
  `InteractionHolds.AbortedAfterLateReserve`), where the comment at
  server/internal/interaction/saga.go:45-47 says that it holds none.
- The memory layout is only regular below 2^29 threads, and the reference index wraps for
  segments so long that 7*segmentLen-3 reaches 2^32 (`Argon2Index.RegularIff`,
  `Argon2Index.CodeIsRfcIff`).
- A nil function passed to Submit or Do stops the mailbox worker like the close sentinel
  (`Mailbox.NothingLeftBehindIff`, `MailboxEnds.NilLeavesJobBehind`), and Idle can be
  early (`Mailbox.InflightBalances`, `Mailbox.IdleCanBeEarly`).
- A deadline generation reused while its old node is still in the heap revives that node
  (`DeadlineBook.AddKeepsIff`, `DeadlineBook.DeadlineRevived`).
- A racing register can take a session generation back, and the name record can get ahead
  of the player record (`AuthTheorems.NeverBackIffQuiet`, `AuthTheorems.NeverAheadIff`,
  `AuthTheorems.RegisterRevivesOldSession`).
- A claim whose reward was paid can be given back as available: only if the zone both
  refused and paid it (`MailClaimTheorems.GivenBackPaidIff`), which happens because a
  refusal for a full inventory is not recorded (`MailClaimTheorems.GivenBack`).
- A second claim of a paid mail never ends unless it was refused for space
  (`MailClaimTheorems.LosingClaimStaysOpen`).
- A page token made from a mail ID that ends in white space can skip a mail
  (`MailPages.EveryMailOnceIff`, `MailPages.MailIsLost`). newMailID makes no such ID, and
  its mailboxes are listed completely (`MailPages.OwnIdsYieldEveryMailOnce`).
- The comment in the sort of finishSnapshot (server/internal/gateway/push_hub.go:126-128)
  says unversioned pushes are filtered out; the code delivers them
  (`PushHub.SortedKeptIsDelivery`).
- Pushes can go out late or twice: late when a snapshot of a ready connection is given up
  with pushes held, twice when a flush fails midway (`PushRuns.InOrderIff`,
  `PushRuns.LateNeedsACause`, `PushRuns.HeldPushComesLate`, `PushRuns.WrittenTwice`).
- Deltas keep the committed term and index of the last snapshot
  (`RouteCache.DeltasGoForward`).

## Model

| member | source | states |
|---|---|---|
| FriendLists.ReserveOn | server/internal/friend/link_saga.go:331-350 | the two search loops and the cap test of reserveSlot on a loaded list: settled if and only if the friend or this link's reservation is there, refused at 100 active and reserved, otherwise one reservation behind the others and nothing else |
| FriendLists.DropReservations | server/internal/friend/link_saga.go:450-458 | the filtering loop keeps, in order, exactly the reservations of other links, and reports whether it dropped one |
| FriendLists.ConsumeOn | server/internal/friend/link_saga.go:440-467 | consumeReservation's look at a loaded list: settled if and only if the relation is projected already, otherwise exactly this link's reservations go, the entry is appended and the counters follow |
| FriendLists.ReleaseOn | server/internal/friend/link_saga.go:493-509 | releaseReservation's look at a loaded list: nothing to write if and only if there is no reservation of the link, otherwise exactly those go, the counter is lowered and the entries stay |
| FriendLists.WithoutSpec | server/internal/friend/link_saga.go:450-458 | membership of the filtered reservations in both directions, and that distinct links lose exactly one |
| FriendLists.FreedKeeps | server/internal/friend/link_saga.go:450-463 | freeing keeps the counters exact and lowers the reserved count by one if and only if the link held a slot |
| FriendLists.ReserveKeeps | server/internal/friend/link_saga.go:331-350 | a reservation is only added below the cap, is then there, and no other is lost |
| FriendLists.ConsumeKeepsIff | server/internal/friend/link_saga.go:440-467 | turning a reservation into an entry keeps the list well counted if and only if the link holds a slot or one is free |
| FriendLists.ConsumeFreesIff | server/internal/friend/link_saga.go:440-467 | one projection on one list: the link's own slot is freed if and only if the relation was not projected before |
| FriendLinkDriver.AlwaysConverges | server/internal/friend/link_saga.go:164-269 | whatever stores and collaborators answer, a driver never takes the did-not-converge exit and never starts an iteration numbered above eight |
| FriendLinkSafety.FriendMeansRelation | server/internal/friend/link_saga.go:440-449 | in a good store a list has the friend if and only if it has the relation of the two players, under one entry |
| FriendLinkSafety.ConsumeStep | server/internal/friend/link_saga.go:420-475 | a consume write that lands keeps every list, saga and relation in order: an entry is only added in exchange for a held slot |
| FriendLinkTheorems.StepKeeps | server/internal/friend/link_saga.go:65-609 | every store or collaborator call of any driver, refused, applied, or applied with the reply lost, keeps the whole invariant and only moves the durable record forward |
| FriendLinkTheorems.RunKeeps | server/internal/friend/link_saga.go:65-609 | the invariant holds after every run of any number of drivers from empty tables |
| FriendLinkTheorems.RunsMoveForward | server/internal/friend/link_saga.go:158-270 | over any two moments of a run entries, relations, first-friend rows, credits and mails are never withdrawn, a saga follows its status path, and one not yet releasing keeps its slots |
| FriendLinkTheorems.ListsAreWellCounted | server/internal/friend/link_saga.go:319-516 | in every reachable state each list has active count = entries, reserved count = reservations, distinct reservation links, distinct friends and at most 100 in all |
| FriendLinkTheorems.FriendshipIsMutual | server/internal/friend/link_saga.go:188-198 | a saga at or past PROJECTIONS_APPLIED has the active relation with its relation ID, and each player lists the other exactly once under it, even when codes raced for the pair |
| FriendLinkTheorems.EntriesAreBacked | server/internal/friend/link_saga.go:381-475 | every list entry is backed by the relation of the two players under its ID, and that relation comes from a durable saga between them that reserved both sides |
| FriendLinkTheorems.OneClaimPerInvitee | server/internal/friend/link_saga.go:518-543 | over all moments of a run at most one saga of an invitee carries the first-reward claim |
| FriendLinkTheorems.RewardMailsFollowTheClaim | server/internal/friend/link_saga.go:545-609 | a reward mail is only requested for an invitee whose row is claimed and whose durable saga of that code carries the claim, to the inviter of that row or the invitee, and one source ID never has two recipients |
| FriendLinkTheorems.CompletedMeansDelivered | server/internal/friend/link_saga.go:203-248 | a durable COMPLETED saga has both task credits accepted, and both reward mails if it holds the claim |
| FriendLinkNames.EntriesCarryTheFriendsName | server/internal/friend/link_saga.go:420-475 | over every run each entry of each list carries its friend's own account name, which is not empty |
| FriendLinkAlone.RedeemAlone | server/internal/friend/link_saga.go:65-270 | from every reachable state a redeem that nobody disturbs ends in at most forty calls: the players are linked, credited and rewarded, unless one has no room, which aborts the saga with no slot held, and the caller is told which; without the collaborators the answer is the same and the saga waits |
| FriendLinkErrors.ErrorsHaveACause | server/internal/friend/link_saga.go:65-156 | over every run an error is reported only for arguments that name nobody or one player twice, or after one of the caller's own calls failed, lost a compare-and-swap, found no account name or drew a taken ID; races and unwilling collaborators lead to none |
| FriendLinkAnswers.AnswerDecidedOnEntry | server/internal/friend/link_saga.go:79-121 | a call that finds the pair related is answered with the pair's active relation if and only if its own saga was not RELEASING or ABORTED when it read it and no later list load of the call finds a full list; otherwise, and only then, with its own saga's ID, which is no relation's |
| FriendLinkAnswers.SettledSagaAnswersTheRelation | server/internal/friend/link_saga.go:79-100 | with its own saga absent, COMPLETED or at or past BOTH_RESERVED when it reads, such a call is answered with the active relation, whatever happens in between |
| FriendLinkAnswers.FreshAnswerIsTheRelation | server/internal/friend/link_saga.go:101-121 | a call that finds the pair not related is answered with the active relation, and a newly linked pair lists each other |
| FriendLinkRuns.AbortedCodeAnswersItsOwnId | server/internal/friend/link_saga.go:84-97 | the exception is reachable from empty tables: code 1 is refused at a list that ninety-nine others and code 2 have filled, code 2 makes relation 20, and the redeemer of code 1 asking again is answered with 10 |
| FriendLinkSlots.HeldIffKept | server/internal/friend/link_saga.go:319-516 | at any moment of any run a player holds a slot for a link if and only if its last reservation there was not followed by an entry or a release of that link |
| FriendLinkSlots.ForwardHoldsIff | server/internal/friend/link_saga.go:440-467 | a saga that has not turned back, a COMPLETED one in particular, holds a slot of a player if and only if it reserved there and no entry was ever written there for it |
| FriendLinkSlots.LeakedByAnotherLink | server/internal/friend/link_saga.go:447-449 | if a saga at or past PROJECTIONS_APPLIED still holds a slot, another link of the same two players wrote the entry there |
| FriendLinkSlots.AbortedHolds | server/internal/friend/link_saga.go:477-516 | an ABORTED saga holds a slot if and only if no release there followed its last reservation, and then a release call there failed or a driver that had loaded the saga before it turned back reserved afterwards |
| FriendLinkRuns.CompletedStillHolds | server/internal/friend/link_saga.go:447-449 | a run from empty tables in which two codes of one pair race and the second completes while it still holds a slot of both players |
| FriendLinkRuns.AbortedAfterFailedRelease | server/internal/friend/link_saga.go:477-480 | a run in which a release call fails, the error is dropped and the saga is aborted with the slot held |
| FriendLinkRuns.AbortedAfterLateReserve | server/internal/friend/link_saga.go:319-358 | a run in which no release fails and an aborted saga holds a slot: a second caller that loaded it at INIT reserves after the abort |
| FriendLinkCode.GetOrCreateFriendList | server/internal/friend/link_saga.go:360-379 | get, insert-if-absent and get again, call for call the driver's list read |
| FriendLinkCode.ReserveSlot | server/internal/friend/link_saga.go:319-358 | the CAS retry loop of a reservation ends where the driver automaton does, for any replies |
| FriendLinkCode.ConsumeReservation | server/internal/friend/link_saga.go:420-475 | account name, list edit and CAS retries of a projection, in step with the driver; whose name it is stands in `FriendLinkNames.EntriesCarryTheFriendsName` |
| FriendLinkCode.ReleaseReservation | server/internal/friend/link_saga.go:482-516 | the release loop in step with the driver, including that errors are dropped |
| FriendLinkCode.CreateRelation | server/internal/friend/link_saga.go:381-404 | insert the relation, adopt the existing relation's ID on a duplicate, in step with the driver |
| FriendLinkCode.CreditBothSides | server/internal/friend/link_saga.go:276-317 | credit each side not yet credited, persisting after each, in step with the driver |
| FriendLinkCode.CreateRewardMails | server/internal/friend/link_saga.go:545-609 | request each mail not yet applied, persisting after each, in step with the driver |
| FriendLinkCode.CheckFirstFriendReward | server/internal/friend/link_saga.go:221-240 | the claim of the invitee's row, the mails it leads to, and a noted failure, in step with the driver |
| FriendLinkCode.SwitchOn | server/internal/friend/link_saga.go:165-260 | one pass of the status switch: the next persisted record, or the answer, is the driver's |
| FriendLinkCode.Advance | server/internal/friend/link_saga.go:158-270 | the bounded loop ends where the driver does, for any replies |
| FriendLinkCode.EstablishFriendship | server/internal/friend/link_saga.go:65-156 | the entry, with createSaga, answers what the driver answers and never reports that it did not converge |
| Argon2Index.RegularIff | server/internal/auth/password.go:57-62 | the memory rounds to four equal segments of at least two blocks per lane without wrap if and only if 8*threads fits in 32 bits |
| Argon2Index.OffsetInRange | server/internal/auth/password.go:173-175 | the 64-bit product chain computes the mapping of section 3.4.2 of RFC 9106 without wrap and stays inside the area |
| Argon2Index.AreaNeverEmptyIff | server/internal/auth/password.go:150-171 | no visited position has an empty reference area, so area-1 never underflows, if and only if segments have at least two blocks |
| Argon2Index.CodeIsRfc | server/internal/auth/password.go:149-177 | for every lane count, size, pass, slice and index the wrapping code equals the integer formula of section 3.4.2 of RFC 9106 |
| Argon2Index.CodeIsRfcIff | server/internal/auth/password.go:149-177 | it does so at every visited position if and only if 7*segmentLen-3 fits in 32 bits: past that start+relative wraps |
| Argon2Index.ReferenceAvailable | server/internal/auth/password.go:116-138 | the referenced column is inside the lane, already filled, not in a segment another lane is filling, and in the own lane neither the current nor the previous block |
| Argon2Index.WindowIsReferenceSet | server/internal/auth/password.go:149-177 | the window of area columns from the start position is exactly the reference set of section 3.4.2 of RFC 9106 |
| Argon2Fill.Around | server/internal/auth/password.go:117-121 | the 32-bit position arithmetic gives the current block and the cyclic predecessor in its lane |
| Argon2Fill.Refer | server/internal/auth/password.go:132-137 | the reference lane and position computed in 32 bits are the specified ones and in range |
| Argon2Fill.NextPseudo | server/internal/auth/password.go:123-131 | every 128 indices a new address block: compressed twice from pass, lane, slice, memory, time cost, 2 and index/128+1 followed by zeros, of which the word at index mod 128 is taken; in the data-dependent slices the first word of the cyclic predecessor (section 3.4.1.2 of RFC 9106) |
| Argon2Fill.FillSegment | server/internal/auth/password.go:103-147 | the in-place loop turns the memory into the specified segment, step by step the compression of the predecessor and the referenced block, with the address block of the right counter at every index |
| Argon2Fill.SegmentAgrees | server/internal/auth/password.go:116-139 | memories that differ only in what other lanes of the slice write give segments that agree: filling never reads there |
| Argon2Fill.SegmentIsLocal | server/internal/auth/password.go:116-139 | filling a segment writes that segment only |
| Argon2Fill.SliceAt | server/internal/auth/password.go:103-140 | after some lanes of a slice each of them holds what it would hold had it been filled first |
| Argon2Fill.AnyLaneOrder | server/internal/auth/password.go:103-140 | the lanes of a slice may be filled in any order with the same resulting memory |
| Argon2Fill.FillMemory | server/internal/auth/password.go:82-88 | the loops over passes, slices and lanes fill the memory as specified, each slice of each pass by the steps of its segments, for every layout with regular segments, however long |
| Blake2.ChunksHoldMessage | server/internal/auth/password.go:270-293 | the zero-padded 128-byte blocks hold every message byte once, in order |
| Blake2.Blake2bSum | server/internal/auth/password.go:270-293 | the consuming loop is the hash of section 3.3 of RFC 7693: chaining values from the initial one, one compression for each begun 128-byte block of the zero-padded message with the bytes so far, only the last flagged; an illegal digest length is the panic |
| Blake2.DigestOnce | server/internal/auth/password.go:270-293 | that chain leaves one possible digest |
| Blake2.HPrime | server/internal/auth/password.go:232-268 | section 3.3 of RFC 9106: exactly outLen bytes, and the tail behind the half digests is 33 to 64 bytes |
| Blake2.ArgonHPrime | server/internal/auth/password.go:232-268 | the loop computes H' for every length of at least one: the first halves of the chained 64-byte digests of length and input, then a digest of the last one for the remaining 33 to 64 bytes |
| RequestDigest.BuildPreimage | server/internal/interaction/ids.go:36-58 | the appended bytes hold each of the nine digested fields at its own offset, where it can be read back |
| RequestDigest.PreimageDetermines | server/internal/interaction/ids.go:36-58 | two requests that pass validate share a preimage if and only if they agree on all nine digested fields; quantity is free |
| InteractionSaga.AlwaysConverges | server/internal/interaction/saga.go:242-346 | whatever is answered the loop never takes its did-not-converge exit and never starts an iteration numbered above four |
| InteractionTheorems.StepKeeps | server/internal/interaction/saga.go:155-370 | every store, visitor or owner call of any driver, refused, applied or with a lost reply, keeps the invariant, for an owner that may refuse any call and keeps receipts of applications only |
| InteractionTheorems.RunKeeps | server/internal/interaction/saga.go:155-370 | the invariant holds after every run of any number of Execute and Resume drivers |
| InteractionTheorems.RunsMoveForward | server/internal/interaction/saga.go:235-347 | the record follows its status path, and an application by the owner and a visitor commit are never changed |
| InteractionTheorems.CompletedIsAtomic | server/internal/interaction/saga.go:259-323 | COMPLETED means the owner applied once, the visitor committed once and the record carries the visitor's response |
| InteractionTheorems.AbortedIsAtomic | server/internal/interaction/action_saga.go:129-220 | RELEASING and ABORTED mean that the visitor committed nothing and never will, and that the owner applied nothing and never will in any run in which it does not both refuse and apply |
| InteractionTheorems.CallersAgree | server/internal/interaction/saga.go:318-332 | no interaction succeeds for one caller and aborts for another, at any two moments, and all successes return one response |
| InteractionTheorems.ExecutesAgree | server/internal/interaction/saga.go:186-230 | two Execute calls past their digest check, at any two moments and including those answered from a finished record, agree on all nine digested fields |
| InteractionTheorems.AbortsCarryTheCode | server/internal/interaction/saga.go:325-332 | a caller told of an abort is given the code of the ABORTED record, which is one that a reserve or owner call of this interaction was refused with, and two such callers, at any two moments, are given the same |
| InteractionTheorems.SuccessEchoesTheOwner | server/internal/interaction/saga.go:297-323 | a success carries the response the visitor committed, with the patch of the owner's one application |
| InteractionAnswers.ErrorsAreTrue | server/internal/interaction/saga.go:155-230 | over every run an invalid request is reported exactly when validate refuses it, a digest conflict only for a record of another request, and an unknown status, an undecodable result or missing convergence never |
| InteractionAnswers.UnknownIsNoted | server/internal/interaction/saga.go:356-370 | a caller is told that the outcome is unknown only in the step that notes the transport error in the record and changes nothing else |
| InteractionAnswers.OnlyWhatWasRequested | server/internal/interaction/saga.go:199-230 | the record, the application and what holds for them are those of a request that some Execute was started with |
| InteractionAnswers.FailuresHaveACause | server/internal/interaction/saga.go:155-370 | over every run a failed store or an unknown outcome is reported only after something happened to one of the caller's own calls; losing the race to create the record is no such thing |
| InteractionAlone.ExecuteAlone | server/internal/interaction/saga.go:155-347 | from every reachable state an Execute that nobody disturbs ends in at most nine calls with the answer the tables determine: applied once, committed once and answered with the response, or a digest conflict, or the end of the record that is there |
| InteractionTheorems.TornIff | server/internal/interaction/saga.go:259-346 | over every run: an interaction its owner applied ends RELEASING or ABORTED if and only if some step sends back an applied record or applies one already sent back, and then the owner has both refused and applied |
| InteractionTheorems.RefusedAfterApplying | server/cmd/zone/friend_rpc.go:426-432 | it happens: the reply of an application is lost, and the retry is refused by the lease check that runs before the receipt lookup |
| InteractionTheorems.AppliedAfterRefusing | server/internal/player/apply_pest.go:43-57 | it happens also with the receipt looked up first: a refusal leaves no receipt, so another caller is applied before the refused one writes RELEASING |
| InteractionHolds.HeldIff | server/internal/player/steal_crop.go:92-137 | over every run the visitor holds a reservation if and only if one was made and neither a release nor a commit has landed: the row is made once, and a released or consumed one is never reserved again |
| InteractionHolds.ForwardHolds | server/internal/interaction/saga.go:242-316 | an interaction past INIT that did not turn back has its reservation until the visitor commits, and the commit consumes it |
| InteractionHolds.AbortedHolds | server/internal/interaction/saga.go:325-346 | over every run an ABORTED interaction holds a reservation if and only if one was made and no release of it landed, and then a release call failed or a driver that had loaded the record at INIT made the first reservation after it went back |
| InteractionHolds.AbortedAfterFailedRelease | server/internal/interaction/saga.go:325-329 | it happens: the release call fails and its error is dropped |
| InteractionHolds.AbortedAfterLateReserve | server/internal/player/steal_crop.go:104-132 | it happens with no release failing: caller 1 is refused for want of capacity and aborts, caller 2 then makes the first reservation |
| InteractionCode.SwitchOn | server/internal/interaction/saga.go:243-336 | one pass of the status switch: the next persisted record, or the answer, is the driver's; which code an abort carries stands in `InteractionTheorems.AbortsCarryTheCode` |
| InteractionCode.Advance | server/internal/interaction/saga.go:235-347 | the bounded loop ends where the driver does, for any replies |
| InteractionCode.DeferRetry | server/internal/interaction/saga.go:356-370 | a transport failure keeps the status, notes the error and answers that the outcome is unknown |
| InteractionCode.ExecuteRequest | server/internal/interaction/saga.go:155-233 | Execute with createOrLoad answers what its driver answers |
| InteractionCode.ResumeRequest | server/internal/interaction/action_saga.go:76-85 | Resume loads without comparing digests and answers what its driver answers |
| DeadlineBook.ActorDeadlineBook.HeapPush | server/internal/player/actor_scheduler.go:36-40 | a push keeps heap order and index fields and adds exactly the node |
| DeadlineBook.ActorDeadlineBook.HeapPop | server/internal/player/actor_scheduler.go:42-50 | a pop keeps heap order and index fields and removes exactly the root |
| DeadlineBook.ActorDeadlineBook.Schedule | server/internal/player/actor_scheduler.go:68-79 | the plan maps the player to the deadline; the live nodes stay in step with it if and only if no node left over with this player and generation has another deadline, and stay unique if and only if there is none at all |
| DeadlineBook.ActorDeadlineBook.Cancel | server/internal/player/actor_scheduler.go:81-89 | the player leaves the plan, the heap is untouched |
| DeadlineBook.ActorDeadlineBook.Peek | server/internal/player/actor_scheduler.go:98-110 | the answer is the least live node of the heap, whatever state that is in; in step with the plan it is the least planned deadline by (deadline, player), and none if and only if nothing is planned |
| DeadlineBook.DeadlineRevived | server/internal/player/runtime.go:99-101 | the failure happens to an actor that is loaded again and counts its generations anew: after schedule, cancel and schedule with generation 1 the book answers with the old deadline although another is planned |
| DeadlineBook.ActorDeadlineBook.PopDue | server/internal/player/actor_scheduler.go:112-128 | the least planned deadline is removed and returned if it is due, otherwise nothing planned is due |
| DeadlineBook.ActorDeadlineBook.DrainDue | server/internal/player/actor_scheduler.go:225-234 | repeated popDue yields exactly the planned deadlines that are due, each once, in ascending order and with its player's generation, and leaves the rest planned |
| DeadlineBook.RootLeast | server/internal/player/actor_scheduler.go:23-28 | the root of an ordered heap is least |
| DeadlineBook.AddKeepsIff | server/internal/player/actor_scheduler.go:74-78 | adding a node keeps heap and plan in step if and only if every left-over node of its player and generation has its deadline: any other would be revived |
| Mailbox.StepKeeps | server/internal/actor/mailbox.go:178-245 | every step of Submit, Do, Close and the worker keeps the invariant, at any interleaving |
| Mailbox.RunsInAdmissionOrder | server/internal/actor/mailbox.go:178-190 | what has run is a prefix of what was admitted, and no call runs twice |
| Mailbox.EveryAdmittedJobRuns | server/internal/actor/mailbox.go:178-190 | from any reachable state whose worker has not stopped, and with no nil function admitted, the worker's own steps run everything admitted, in order |
| Mailbox.NothingLeftBehindIff | server/internal/actor/mailbox.go:180-185 | when Close has returned or the worker has stopped, all admitted jobs have run and the channel is empty if and only if no call passed a nil function |
| Mailbox.ClosedAdmitsNothing | server/internal/actor/mailbox.go:237-245 | once the flag is set no job is ever sent, and after Close nothing is |
| Mailbox.OutcomesAreTrue | server/internal/actor/mailbox.go:199-235 | a call that reports an error never runs, Submit's success means admitted, Do returns only after its job has run, and closed is only reported of a closed mailbox |
| Mailbox.OutcomesHaveACause | server/internal/actor/mailbox.go:199-235 | each outcome at the moment it is decided: closed for a new call of a closed mailbox, full for a Submit without room and without a waiting worker, cancelled for a Do only, admitted for a counted Submit, finished for a job signalled done; and none is taken back |
| Mailbox.SubmitAlone | server/internal/actor/mailbox.go:199-213 | an undisturbed Submit from any state: refused as closed, refused as full, or admitted as the last item of the channel and counted, each exactly when it should be |
| Mailbox.DoAlone | server/internal/actor/mailbox.go:217-235 | an undisturbed Do with a free worker returns only behind the end of its job, which has run once and is counted off |
| Mailbox.InflightBalances | server/internal/actor/mailbox.go:192-209 | inflight plus the jobs sent but not yet counted equals the jobs queued and running; Idle wrongly says yes if and only if inflight is zero while a caller stands between send and count, and wrongly says no if and only if inflight is minus the number of such callers |
| Mailbox.IdleCanBeEarly | server/internal/actor/mailbox.go:206-209 | Idle does say yes with a job waiting, in a reachable state |
| MailboxEnds.MovesEnd | server/internal/actor/mailbox.go:178-245 | without new calls the goroutines take at most boundedly many steps, in any order |
| MailboxEnds.ComesToRest | server/internal/actor/mailbox.go:178-245 | from every state some such run ends where no goroutine can move |
| MailboxEnds.EverythingEnds | server/internal/actor/mailbox.go:178-245 | from any reachable state in which nobody passes a nil function, in whatever order the steps are taken: where no goroutine can move by itself every call has returned, each waiting Do with success, Close has returned if it was called, and everything admitted has run |
| MailboxEnds.NilLeavesJobBehind | server/internal/actor/mailbox.go:180-185 | the failure happens: a Do admitted behind a nil function never runs and never returns, whatever follows |
| AwaitHandle.Handle.Suspend | server/internal/actor/mailbox.go:91-100 | one locked region, as the machine's step |
| AwaitHandle.Handle.Reserve | server/internal/actor/mailbox.go:117-131 | Resume up to its unlock: closed if complete, then not suspended, then already resumed, otherwise exactly this caller goes and resumed is set |
| AwaitHandle.Handle.Complete | server/internal/actor/mailbox.go:148-161 | the first completion sets the error and closes done, later ones change nothing |
| AwaitHandle.StepKeeps | server/internal/actor/mailbox.go:61-161 | every step of the initial job, resumers and continuations keeps the invariant |
| AwaitHandle.OneContinuation | server/internal/actor/mailbox.go:105-144 | over every interleaving at most one continuation is admitted, it runs at most once, and done is closed at most once, exactly when completed |
| AwaitHandle.NobodyWaitsForever | server/internal/actor/mailbox.go:69-82 | an initial step that is over without suspending, or a continuation that ran, has completed the handle |
| AwaitHandle.ResumableAgain | server/internal/actor/mailbox.go:132-142 | a Resume goes ahead if and only if no other caller holds the handle; a refused submit lets go |
| AwaitHandle.VerdictsAreTrue | server/internal/actor/mailbox.go:105-144 | why each Resume is over: the handle complete, nobody having suspended it, another caller holding it, or the very error the mailbox refused with |
| AwaitHandle.CompletedBecause | server/internal/actor/mailbox.go:61-161 | a handle becomes complete exactly by Complete, by its continuation, or at the end of the first step when that failed or left it neither suspended nor completed, and with the error of that |
| AwaitHandle.FirstErrorStays | server/internal/actor/mailbox.go:148-176 | the first completion decides the error for good |
| RouteCache.UuidTextDetermines | server/internal/coordinatorclient/cache.go:221-230 | two identifiers with the same text are the same |
| RouteCache.FormattedIsText | server/internal/coordinatorclient/cache.go:221-230 | an identifier has a text exactly when it has no or sixteen bytes: two hexadecimal digits for each byte, with dashes behind the fourth, sixth, eighth and tenth |
| RouteCache.DecodesExactly | server/internal/coordinatorclient/cache.go:192-220 | which encoded routes are accepted, and what becomes of every field |
| RouteCache.Cache.DecodeSnapshot | server/internal/coordinatorclient/cache.go:178-191 | accepted if and only if well formed, into a new table holding the decoded routes |
| RouteCache.Cache.ApplySnapshot | server/internal/coordinatorclient/cache.go:40-47 | an accepted snapshot replaces the table whatever its version, a refused one changes nothing, and no existing table is written |
| RouteCache.Cache.Overlay | server/internal/coordinatorclient/cache.go:63-81 | the copying loop succeeds if and only if every route decodes, raises its shard's version and comes once, and then changes exactly those shards |
| RouteCache.Cache.ApplyBatch | server/internal/coordinatorclient/cache.go:48-85 | applied, ignored or answered with resync by the version rules; applied means exactly the named shards changed in a new table, otherwise the very same table stays |
| RouteCache.FullMeans | server/internal/coordinatorclient/cache.go:40-47 | a snapshot of 4096 routes in shard order under the known versions becomes the table, any other leaves it |
| RouteCache.DeltaMeans | server/internal/coordinatorclient/cache.go:48-85 | a batch is laid over the table if and only if it continues its version, is not empty, and each route decodes, raises its shard's version and comes once; then the named shards have their routes and the others theirs; otherwise nothing changes, and it is ignored exactly when it is well ordered and already covered |
| RouteCache.Cache.CollectZones | server/internal/coordinatorclient/cache.go:114-123 | the batch as a map, refused if and only if an entry is bad or a zone comes twice |
| RouteCache.Cache.ApplyAvailability | server/internal/coordinatorclient/cache.go:110-148 | a full list replaces, a contiguous delta overlays, a known one is ignored, anything else is refused without change |
| RouteCache.ZonesMean | server/internal/coordinatorclient/cache.go:110-148 | zone by zone: a full list replaces, a difference naming the current version is laid over, anything else leaves the list, and is ignored exactly when well formed and already covered |
| RouteCache.Cache.ResolveShard | server/internal/coordinatorclient/cache.go:86-108 | a route is given if and only if the shard exists, the watch is fresh, the route is active and its zone is not known to be unhealthy |
| RouteCache.Cache.GetSnapshot | server/internal/coordinatorclient/cache.go:149-157 | the caller gets a copy of its own |
| RouteCache.PatchedOnce | server/internal/coordinatorclient/cache.go:63-84 | laying routes over a table has one outcome |
| RouteCache.AlwaysAPublishedTable | server/internal/coordinatorclient/cache.go:40-85 | after any sequence of true snapshots and differences, lost, repeated, stale or after a gap, the cache equals the table published under its own version |
| RouteCache.DeltasGoForward | server/internal/coordinatorclient/cache.go:56-84 | a delta never lowers the version, only continues the version it names, and keeps the committed term and index of the last snapshot |
| RouteCache.AppliedIffContiguous | server/internal/coordinatorclient/cache.go:48-62 | a publisher's batch is applied if and only if it continues the cache's version, and ignored if and only if it is already covered |
| RouteCache.CatchesUp | server/internal/coordinatorclient/cache.go:48-85 | an unbroken chain of publisher batches ends at the last published table |
| RouteCache.AlwaysAPublishedZoneList | server/internal/coordinatorclient/cache.go:110-148 | the zone list equals the list published under its version, after any sequence of true batches |
| PushHub.StableSortSorts | server/internal/gateway/push_hub.go:125-135 | the sorted buffer is ascending by (epoch, seq), equal keys in arrival order |
| PushHub.SortedOnce | server/internal/gateway/push_hub.go:125-135 | there is one such order, whatever algorithm finds it |
| PushHub.ConnectionSubscription.Enqueue | server/internal/gateway/push_hub.go:90-104 | held back while not ready or buffering, dropping the oldest beyond 256, otherwise written at once |
| PushHub.ConnectionSubscription.FinishSnapshot | server/internal/gateway/push_hub.go:118-153 | on success the response, then the promised pushes, with an empty buffer; on failure a prefix of that, the flags and the held pushes kept |
| PushHub.ConnectionSubscription.Collect | server/internal/gateway/push_hub.go:136-146 | the picking loop writes the response and every kept push, in buffer order |
| PushHub.Writer.WriteBatch | server/internal/gateway/gateway.go:219-228 | all bodies, or those before the first failing write |
| PushHub.SortedKeptIsDelivery | server/internal/gateway/push_hub.go:125-146 | sorting and filtering gives the unversioned pushes in arrival order, then exactly the versioned ones newer than the snapshot, ascending |
| PushHub.DeliveryOnce | server/internal/gateway/push_hub.go:125-146 | that promise leaves one possible delivery |
| PushHub.AppendedKeeps | server/internal/gateway/push_hub.go:93-101 | the buffer stays the most recent 256 arrivals, and its unversioned part the most recent ones in order even after a failed flush |
| PushHub.NothingNeededIsLostIff | server/internal/gateway/push_hub.go:93-101 | the delivery is the promise for all arrivals if and only if every dropped push is versioned and covered by the snapshot |
| PushRuns.EveryPushIsAccountedFor | server/internal/gateway/push_hub.go:90-153 | over every run of a connection each push is in exactly one place: written at once, written by a flush, dropped, covered by a snapshot, lost in a failed write, or held; and what is out is exactly what was written |
| PushRuns.FlushSends | server/internal/gateway/push_hub.go:118-153 | a flush sends each held push as often as it is held, of the versioned ones only those of a later epoch than the snapshot or of its epoch and a larger number; those without a version first, then by epoch and number |
| PushRuns.WrittenTwiceIff | server/internal/gateway/push_hub.go:147-152 | a push is written twice if and only if flushes wrote it twice, of which at most one succeeded |
| PushRuns.WrittenTwice | server/internal/gateway/push_hub.go:147-152 | it happens: a flush fails between two pushes, and the next one writes the first again |
| PushRuns.InOrderIff | server/internal/gateway/push_hub.go:90-153 | over every run the unversioned pushes go out in arrival order and none twice, if and only if no flush writes one although that or a later one is out |
| PushRuns.LateNeedsACause | server/internal/gateway/push_hub.go:90-153 | that takes a push written at once while another is held, or a flush that failed midway |
| PushRuns.StrandedIff | server/internal/gateway/push_hub.go:106-116 | later pushes can overtake held ones exactly while the last snapshot of the ready connection was given up with pushes held and none was begun or finished since |
| PushRuns.HeldPushComesLate | server/internal/gateway/push_hub.go:90-116 | it happens: a held push is written behind one that arrived later |
| PushRuns.Play | server/internal/gateway/push_hub.go:90-153 | every operation of the subscription writes, body for body, what the event of the run writes, and leaves its state |
| PlayerIds.AllocatePlayerID | server/internal/auth/tcaplus_store.go:143-176 | the loop ends where its driver does, for any replies, and gives up for conflicts after exactly eight reads, each with a failed write |
| PlayerIds.StepKeeps | server/internal/auth/tcaplus_store.go:143-176 | every counter call, refused, applied or with a lost reply, keeps the invariant, and the counter never goes back |
| PlayerIds.AllocationsAreDistinct | server/internal/auth/tcaplus_store.go:143-176 | no two callers are ever given one ID, every ID given is positive and below the counter, and exhaustion is only reported at the largest number |
| PlayerIds.AllocateAlone | server/internal/auth/tcaplus_store.go:143-176 | an undisturbed caller takes the counter's number and raises it by one, the first one ever takes 1 and leaves 2, and it gives up exactly at zero or the largest number, without a change |
| PlayerIds.FailureNeedsAFault | server/internal/auth/tcaplus_store.go:143-176 | over every run without a refused call or lost reply no caller is told that the store failed, however many race |
| AuthSessions.StepKeeps | server/internal/auth/tcaplus_store.go:56-273 | every call of any register or login keeps the invariant on both account records |
| AuthSessions.SettleWins | server/internal/auth/tcaplus_store.go:253-270 | a login whose name update lands obtains a generation and a player version above all earlier ones |
| AuthTheorems.LoginsAreOrdered | server/internal/auth/tcaplus_store.go:235-273 | successful logins obtain strictly increasing generations in name-record and in player-record order, pairwise distinct |
| AuthTheorems.NeverBackIffQuiet | server/internal/auth/tcaplus_store.go:114-117 | over a run it never goes back if and only if no such step occurs |
| AuthTheorems.SupersededStaysDead | server/internal/auth/tcaplus_store.go:318-341 | without such a step a superseded generation is never active again |
| AuthAlone.TokensMatchTheirRows | server/internal/auth/tcaplus_store.go:318-341 | over every run a login told generation g has inserted a session row of generation g, a register one of generation 1, and the row lets its token in exactly while it is not revoked and the player record is active at that generation |
| AuthAlone.ActiveStaysActive | server/internal/auth/tcaplus_store.go:275-316 | an active session stays active until a step revokes it or changes the player record |
| AuthAlone.LoginAlone | server/internal/auth/tcaplus_store.go:206-273 | from every reachable state a login that nobody disturbs ends in at most six calls: an active account gets a generation above both records', which then carry it, and a session that is active at once; otherwise the answer says why |
| AuthAlone.RegisterAlone | server/internal/auth/tcaplus_store.go:56-129 | from every reachable state a register that nobody disturbs ends in at most eight calls: an active name is unavailable, any other becomes active at generation 1 in both records with a session that is active at once |
| AuthTheorems.AheadIff | server/internal/auth/tcaplus_store.go:114-124 | a run ends with the name record ahead of the player record if and only if some step put it there, a reset below it or a login whose raise was so undone, and no login has caught up since |
| AuthTheorems.NeverAheadIff | server/internal/auth/tcaplus_store.go:247-268 | over a whole run the name record is never ahead if and only if no step puts it there |
| AuthTheorems.NameNeverAhead | server/internal/auth/tcaplus_store.go:247-268 | in every run from empty records without such a reset the name record is never ahead |
| AuthTheorems.RegisterRevivesOldSession | server/internal/auth/tcaplus_store.go:98-124 | the reset happens: a slower register takes the player record from 2 back to 1, so generation 1 is active again and the name record is ahead |
| AuthCode.AdvanceSessionGeneration | server/internal/auth/tcaplus_store.go:235-273 | the eight-attempt loop ends where its driver does, whatever other drivers do in between |
| AuthCode.Login | server/internal/auth/tcaplus_store.go:206-233 | login in step with its driver; which session it inserts stands in `AuthAlone.TokensMatchTheirRows` |
| AuthCode.Register | server/internal/auth/tcaplus_store.go:56-129 | register in step with its driver among any others, from the read over the player ID, whose allocation is one call here, to the last update; it restarts after a lost race for the name and still ends |
| AuthCode.EnsurePlayerAccount | server/internal/auth/tcaplus_store.go:178-204 | insert the player record or load the existing one, in step with the driver |
| MailClaim.StepKeeps | server/internal/mail/claim_saga.go:198-392 | every call of any claim, resume or read driver, refused, applied or with a lost reply, keeps the invariant and turns nothing back |
| MailClaimTheorems.NothingReverts | server/internal/mail/service.go:706-734 | over any two moments read and claimed stay set, payments stay made, and each claim only follows its status path |
| MailClaimTheorems.CompletedIsPaidAndMarked | server/internal/mail/claim_saga.go:321-333 | a durable COMPLETED claim has been paid and its mail is marked claimed, and a caller is told claimed only then |
| MailClaimTheorems.AnswersAreTrue | server/internal/mail/claim_saga.go:75-102 | over every run: claimed means COMPLETED, paid and marked; not ready means AVAILABLE, so a COMPLETED claim is never answered so; inventory full means refused and on its way back; read means marked read |
| MailAlone.ClaimAlone | server/internal/mail/claim_saga.go:53-102 | from every reachable state a claim that nobody disturbs ends in at most fourteen calls: one that can be paid is paid once, marked and read, and its caller told claimed; every other is answered by what the tables say of it |
| MailAlone.FirstClaimIsPaid | server/internal/mail/claim_saga.go:53-102 | the ordinary case from empty tables: the first claim of a mail is paid, COMPLETED and marked, and its caller told claimed |
| MailAlone.ReadAlone | server/internal/mail/service.go:706-734 | an undisturbed markRead marks the mail read and leaves the claimed bit and everything else |
| MailErrors.ErrorsHaveACause | server/internal/mail/claim_saga.go:53-102 | over every run an error other than a full inventory is answered only after something happened to one of the caller's own calls, or after eight attempts; races alone lead to none before |
| MailErrors.AnswersFit | server/internal/mail/claim_saga.go:53-102 | only ClaimMail is told claimed or not ready, and only a bare Advance that it advanced |
| MailClaimTheorems.RecursionIsShallow | server/internal/mail/claim_saga.go:335-349 | Advance and cancelClaim nest at most once, whatever other drivers do |
| MailClaimTheorems.EveryMoveCounts | server/internal/mail/claim_saga.go:259-392 | every move of a reachable driver, whatever it is answered, lowers a measure that is at most 2000 |
| MailClaimTheorems.GivenBackPaidIff | server/internal/mail/claim_saga.go:273-349 | over every run: a paid claim ends given back as AVAILABLE if and only if some step returns a paid claim or pays a returned one, and then the zone has both refused and paid it |
| MailClaimTheorems.GivenBack | server/internal/player/mail_reward.go:123-127 | it happens: a full inventory leaves no receipt, so one driver is refused, another is paid, and the first withdraws the claim |
| MailClaimTheorems.PaidOnce | server/internal/player/mail_reward.go:108-122 | over every run the mail is paid to at most one claim, and at most one claim is COMPLETED |
| MailClaimTheorems.LosingClaimStaysOpen | server/internal/player/mail_reward.go:118-122 | once the mail is paid, another open claim that was never refused for space stays open for good |
| MailCode.MarkRead | server/internal/mail/service.go:706-734 | the eight-attempt loop ends where its driver does, whatever other drivers do in between |
| MailCode.MarkMailClaimed | server/internal/mail/claim_saga.go:362-392 | the mark loop ends where its driver does |
| MailCode.OnePass | server/internal/mail/claim_saga.go:260-317 | one attempt of Advance, with completeClaim and finishCancel, is the driver's |
| MailCode.Advance | server/internal/mail/claim_saga.go:259-319 | the loop and its recursion through cancelClaim end, where the driver does, in any reachable world that others keep changing |
| MailCode.CancelClaim | server/internal/mail/claim_saga.go:335-349 | persist CANCELLING, call Advance again, and turn its nil into inventory full; the two never call each other again |
| MailCode.BeginClaim | server/internal/mail/claim_saga.go:198-256 | look up the registration unless given, then the mail and its reward, load the claim, look for another active one, look at the claimed bit, insert; in step with the driver |
| MailCode.ClaimMail | server/internal/mail/claim_saga.go:53-102 | the whole claim in step with its driver; what it answers stands in `MailClaimTheorems.AnswersAreTrue` and `MailAlone.ClaimAlone` |
| MailPages.SortedOnce | server/internal/mail/service.go:788-795 | mails with distinct keys have one order, newest first |
| MailPages.AheadMeans | server/internal/mail/service.go:788-795 | newer first, and of one moment the larger ID, character by character |
| MailPages.TokenDecodes | server/internal/mail/ids.go:20-38 | a token decodes to its moment and its ID without trailing white space, and is refused when nothing of the ID is left |
| MailPages.TokenRoundTripIff | server/internal/mail/ids.go:20-38 | a token brings back its mail if and only if the ID is not empty and does not end in white space |
| MailPages.TrimmedIs | server/internal/mail/ids.go:25-28 | white space around a token is cut away, and only that |
| MailPages.ParsedIff | server/internal/mail/ids.go:33-36 | digits are read with their decimal value, anything else is refused |
| MailPages.FormattedReads | server/internal/mail/ids.go:20-22 | a moment is written with its decimal digits, without leading zeros |
| MailPages.AfterMeans | server/internal/mail/ids.go:40-48 | what comes after a token: older mails, and those of its moment with a smaller ID |
| MailPages.PageMeans | server/internal/mail/service.go:142-172 | a page holds mails after the token only, at most 20 or the requested number up to 50, all of them without a next token, and otherwise as many as asked for, the next token being the last one's |
| MailPages.OpenMailbox | server/internal/mail/service.go:142-172 | the page loop gives the first mails after the token, and a next token exactly when more follow |
| MailPages.FollowingIsRest | server/internal/mail/ids.go:40-48 | in a sorted mailbox a token that lets the next mail through is followed by exactly the rest |
| MailPages.PagesYieldEveryMailOnce | server/internal/mail/service.go:142-172 | following tokens from the empty one with any page sizes yields the list in order, each mail once, and ends after at most as many calls as there are mails |
| MailPages.EveryMailOnceIff | server/internal/mail/ids.go:20-48 | that holds for all page sizes if and only if every mail's token lets the next mail through |
| MailPages.OwnIdsYieldEveryMailOnce | server/internal/mail/ids.go:12-18 | it holds for every mailbox whose IDs newMailID made, with any page sizes |
| MailPages.MailIsLost | server/internal/mail/ids.go:27-48 | it fails for an ID that ends in a space: of two mails of one moment the second is never listed |
| Ticket.EncodePayload | server/internal/auth/ticket.go:34-54 | the checks refuse exactly the incomplete or oversized claims, and every claim lies, byte for byte, at its offset |
| Ticket.ParseTicketPayload | server/internal/auth/ticket.go:97-128 | the advancing offset parses as specified: the claims returned are those that lie at their offsets, complete, and nothing is returned only when no complete claims lie so |
| Ticket.ReadAppended | server/internal/auth/ticket.go:130-145 | reading where a string was appended finds it, whatever surrounds it |
| Ticket.ParseExactly | server/internal/auth/ticket.go:97-145 | a payload parses to claims if and only if the claims are complete at a whole second and the payload is, byte for byte, their layout |
| Ticket.RoundTrip | server/internal/auth/ticket.go:34-54 | encode, then parse: the same claims with the expiry cut to whole seconds |

## Left out

- Link IDs, relation IDs, provisioning IDs and digests are taken as collision free or fresh; SHA-256, HMAC, base64 and secrecy are opaque.
- Clocks, retry times, contexts, logging and metrics do not appear; expiry is a parameter or absent, and no driver is promised to be scheduled again.
- Row versions are unbounded, where the stores use 32 bits.
- Argon2Fill.FillSegment: the compression function and the xor with the old block are parameters, and the xor is applied after the compression where fillBlock folds it in, which is the same by associativity of xor.
- Blake2.Blake2bSum: the compression function, the initial chaining value and the word order are parameters.
- Argon2Fill.FillMemory: requires a regular layout, whose exact bound is `Argon2Index.RegularIff`.
- Argon2Fill.AnyLaneOrder: requires segments short enough for the positions not to wrap; the exact bound is `Argon2Index.CodeIsRfcIff`.
- The seed of the first two blocks of each lane and the final xor of the last columns of argon2idKey are not modelled.
- FriendLinkCode.EstablishFriendship: the zero-ID checks of the arguments and the text of errors are not modelled; a code has a fixed owner.
- FriendLinkTheorems.ListsAreWellCounted: does not say that finished sagas hold no reservation, because that is false; who holds one is said in FriendLinkSlots.
- InteractionTheorems.AbortedIsAtomic: the owner's half only holds in runs in which it does not both refuse and apply, because otherwise it can fail, exactly as `InteractionTheorems.TornIff` says.
- The interaction owner is one call that refuses, applies or answers from its receipt, and why it refuses is the environment's choice; all calls of one interaction go to one owner and one visitor; the live zone path, which calls the owner without a record, is not modelled.
- InteractionHolds.HeldIff: a visitor's memory and its checkpoint are one table, so a change that was made but not yet saved when its process stops is not modelled; nor is a commit that fails after it has marked the reservation consumed, which takes an overflow of the 64-bit career counter.
- RequestDigest.PreimageDetermines: the length of the interaction ID and the visitor's owner epoch are not fields of the modelled request.
- InteractionCode.Advance: protobuf encoding of payloads is opaque, so a marshalling failure does not occur.
- DeadlineBook.ActorDeadlineBook.DrainDue: nothing is scheduled while the due deadlines are drained; the wake channel and the timer loop are not modelled.
- DeadlineBook.ActorDeadlineBook.HeapPop: sift-up and sift-down are those of container/heap, written out.
- Mailbox.StepKeeps: the atomic counter has no 32-bit limit, and a waiting writer does not yet hold back new readers, which only adds interleavings.
- The mailbox and the await machine are state machines over their steps; only the locked regions of the await handle are also a class.
- AwaitHandle.Handle.Reserve: the nil and cancelled-context arguments of Resume are answered before and change nothing.
- PushHub.ConnectionSubscription.FinishSnapshot: stable sorting is a function with the contract of the library's sort; the hub's subscriber sets and body encoding are left out, and a connection may go on after a failed write.
- RouteCache.Cache.ApplyAvailability: the maps are values, so building the merged map is one operation.
- AuthSessions.StepKeeps: one name and its player; passwords are taken as right, since a wrong one ends the call without a write; a session is its generation and whether it is revoked, and never expires; the loop inside the allocation of a player ID is `PlayerIds.AllocatePlayerID`.
- FriendLinkNames.EntriesCarryTheFriendsName: an account keeps the name it was activated with, as in the code, which has no renaming.
- MailCode.ClaimMail: the items and coins in the answer, copied from the durable claim or the zone's reply, are not modelled.
- MailClaim.StepKeeps: one mail of one player; the lookups of its visibility and reward count as one call with any answer; a claim ID is not used for two mails; the zone answers a paid claim with its payment and declines a second claim of a paid mail.
- MailPages.OpenMailbox: strings are sequences of characters compared in order, where the code compares bytes; the read marking and the unread cache are left out.
- Ticket.ParseTicketPayload: the MAC check and the base64 text around the payload are left out.
- ClaimMailDirect, gift, system and public mail creation, and the mail indicator are left out: they add single-step members.
- Actor eviction, pest and shop commands, shard moves, HTTP and gRPC adapters, SQL stores, the connection registry and farm-view fan-out are left out.
