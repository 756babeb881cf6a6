# payshares-core: a verified model

This project models the state machines at the heart of payshares-core in Dafny and proves what
they keep over whole runs.

* **Consensus.** `Quorums` are the threshold, v-blocking and transitive quorum tests. `SlotModel`
  is one slot as a transition system, `SlotObject` the slot as an object whose methods re-enter
  each other through `advanceSlot`, each tied to the transition of the same step. `SlotVotes` says what
  the slot's tests mean in terms of sets of nodes, `SlotEvents` what each envelope puts on record and
  how it is answered, and `SlotMoves` where a slot moves, what it proposes and when it has heard from
  a quorum, all without naming the transitions. `SlotSafety`, `SlotQuiet` and `SlotAssertions`
  are what every event keeps, where advancing comes to rest, and exactly when an assertion can
  fail for a positive threshold; `SlotZero` does so for threshold 0, `SlotExhaustion` is a run in
  which one does, and `NetworkFailures` names the failing events of every run. `Network` runs any number of slots with messages lost,
  repeated and reordered and with faulty nodes saying anything under their own names, and proves
  agreement; `NetworkProgress` says what it takes for a run to commit and gives runs in which nodes
  that need each other externalize.
* **Bucket list.** `Buckets` is the one-pass merge with shadows, `BucketLevels` the spill
  arithmetic and one ledger close, `BucketTiling` which ledgers each bucket stands for,
  `BucketContents` exactly what each bucket holds, `BucketLookup` the refinement of a plain map, `FutureBuckets`, `BucketRestart` and
  `BucketListObject` the objects with their save and restart, `BucketReplay` the replay of buckets
  into a database.
* **Ledger.** `LedgerDeltas` and `LedgerDeltaObject` are nested change sets, `LedgerRuns` joins
  them to the bucket list, `TxSets` and `TxSetObject` are transaction sets, `LedgerChain` and
  `LedgerManagerObject` are the header chain, verification of downloaded history and the buffering
  and replay of closes during catch-up, and `CatchupObject` is the end of a catch-up, where only
  what was approved is applied and handed back.
* **Base58** is base conversion with carries in 16-bit cells. `Division` holds facts about
  quotients, `Options` the optional value.

`dafny verify dfyconfig.toml` checks everything.

## How the system is modelled

* Hashing (SHA-256) is an uninterpreted function, injective only where a lemma says so. Bucket
  files are content addressed; a missing file is a failure result.
* Signatures mean that an envelope under a correct node's name was sent by that node (`Genuine`,
  `Authentic`). Value and ballot validators are arbitrary functions, answered at once, that accept
  a node's own statements.
* Value comparison is, for each ballot counter, an arbitrary total order given by an injective
  rank into the reals (every total order on a countable set is one). The order in which known
  ballots are visited is an arbitrary enumeration. The nested statement map is one map from
  (ballot, kind, node); excepted ballots are a set; the slot index is left out because a slot only
  sees its own.
* Ballot counters, ledger sequence numbers and account sequence numbers wrap at their real widths.
* A failed assertion is a state or result of its own (`crashed`, `None`, `AssertionFailed`), never
  a precondition.
* Where the C++ library sorts, only "a permutation in ascending order" is used, so ties may fall
  either way.

## What the code does that its documentation does not say

* `bumpToBallot`'s assertions can fail, in two ways. With a positive threshold, a ballot counter at
  its maximum wraps to 0: `ProposeFailsIff` and `DeliverFailsIff` give the exact conditions. With
  threshold 0 every test succeeds, so an uncommitted slot commits at once to what it hears, and a
  PREPARED above the ballot it commits at makes it move after the commit: `ZeroDeliverFailsIff`
  gives the exact condition, `ZeroProposeSucceeds` says proposals never fail, and
  `ZeroThresholdFails` is a failing input. `RunFailsIff` says over every run that exactly these
  events fail. `CounterExhausts` and `ExhaustionRun` show a fresh slot and a run of a network that
  get to the largest counter and fail, for any node that is no quorum by itself and whose
  validators let one PREPARING at that counter through. Keeping such ballots out is left to the
  ballot validator: Herder's refuses counters that grow faster than the timeouts
  (src/herder/HerderImpl.cpp:391-413); the slot itself has no such limit.
* A PREPARING whose ballot is rejected is answered INVALID and then VALID as well
  (src/scp/Slot.cpp:106-126, 202-203). The model keeps both answers.
* In the round that has just committed, `attemptPrepared` sends a PREPARED together with the
  COMMITTED without storing it; the model does the same (`SlotSafety.PreparedAfterCommitKeeps`).
* The ledger ranges in the comments of BucketList.h are those of a list that adds the batch before
  it spills; the code spills first. `BucketTiling` follows the code.
* `Bucket::apply` applies the last entry of a file twice (src/bucket/Bucket.cpp:281-293). A bucket
  that ends in a tombstone therefore fails the "double delete" assertion of the change set.
  `ApplyBuckets` says that replay succeeds exactly when every replayed bucket is there and none ends
  in a tombstone; `TombstoneReplayFails` is a run that produces one.
* Adding an entry that the ledger already holds fails no assertion unless the change set has touched
  its key itself (`FailsIff`).
* `historyCaughtup` has a branch for a catch-up that ended in an error, after which the manager
  would keep catching up with no catch-up under way; its log message promises a restart at the next
  close, but closes are only buffered in that state, however many come (`ExternalizeAll`). As the
  code stands the branch is dead: the error code it is handed (src/history/CatchupStateMachine.h:110)
  is never set.
* The restart after an overshoot reads the last buffered close through a reference into the vector
  it has just cleared (src/ledger/LedgerManagerImpl.cpp:514-530). The model uses the value the
  reference had. No automatic catch-up gets to that branch, whether consensus triggered it or it was
  restarted, because a candidate that would overshoot is not approved
  (`AutomaticNeverOvershoots`, `FinishMinimal`, `FinishComplete`; as long as no ledger number
  wraps). A manual catch-up does: started at the next ledger, it is handed back the last closed one,
  which is approved (`OvershootOnce`).
* A catch-up restarted at a checkpoint that hears of the ledger after it first never ends: rounding
  up gives the start itself, and nothing the manager knows speaks about the ledger before it
  (`RestartUnknown`, `WaitsForEver`). The comment at src/ledger/LedgerManagerImpl.cpp:502-506 says
  there should always be some overlap.
* A catch-up in complete mode that verifies but has nothing to apply hands back an entry that was
  never set (src/history/CatchupStateMachine.cpp:911, 923), and the manager's assertion fails
  (`FinishComplete`).
* `nextCheckpointLedger` rounds up to 0 for the last ledgers below 2^32 (`NextCheckpointIff`).
* The sorter of an apply batch keeps a reference to the temporary hash it was built from, which is
  gone when the sort runs (src/herder/TxSetFrame.cpp:54-60, 124). The model uses the value the hash
  had.
* Erasing a transaction keeps a contents hash that was already computed, which is then wrong exactly
  when the transaction was there (`RemovalOutdatesHash`, `TxSetObject.TxSetFrame.RemoveTx`).

## Model

| member | source | states |
|---|---|---|
| `Quorums.TestQuorum` | src/scp/Node.cpp:25-45 | the counting loop answers true exactly when the validators found reach the threshold, repeated validators counting once per occurrence |
| `Quorums.VBlockingIsDual` | src/scp/Node.cpp:47-73 | a set is v-blocking exactly when no node set avoiding it satisfies the quorum test, threshold 0 included |
| `Quorums.TestVBlocking` | src/scp/Node.cpp:47-73 | the counting loop answers true exactly when no node set avoiding the given one is a quorum |
| `Quorums.SustainedIsGreatest` | src/scp/Node.cpp:112-130 | the shrinking loop ends with the greatest subset in which every member finds a quorum of its own |
| `Quorums.TransitiveQuorumIff` | src/scp/Node.cpp:100-133 | the transitive test succeeds exactly when some subset of the voting nodes satisfies each of its members and the local node |
| `Quorums.TestQuorumTransitive` | src/scp/Node.cpp:100-133 | the do-while loop over the node vector terminates with that answer |
| `Quorums.ThresholdQuorumsIntersect` | src/scp/Node.cpp:25-45 | with n distinct validators and threshold t, 2t - n above the number of faulty nodes, any two quorums share a validator that is not faulty |
| `SlotModel.RecordEffect` | src/scp/Slot.cpp:282-387 | a node's own new statement is stored, sent and asks for another round, except that a COMMITTING is dropped exactly when an own PREPARING contradicts it or the ballot's own PREPARED is missing |
| `SlotModel.AcceptEffect` | src/scp/Slot.cpp:75-207 | what storing an envelope changes, when the ballot follows a PREPARING, and all that a refused envelope can change; which envelopes are stored is `SlotEvents.DeliverRecordsIff` |
| `SlotModel.PassProgress` | src/scp/Slot.cpp:630-807 | a round that asks for another one has committed, or has reduced the count of own statements still missing and known ballots above the current one |
| `SlotSafety.BumpKeeps` | src/scp/Slot.cpp:231-255 | changing the ballot keeps every invariant of the slot, and the ballot never falls |
| `SlotSafety.PreparingKeeps` | src/scp/Slot.cpp:282-329 | a PREPARING lists every own COMMITTING as excepted, so the node stays consistent with itself |
| `SlotSafety.PreparedKeeps` | src/scp/Slot.cpp:331-357 | sending PREPARED keeps the invariants and neither moves nor commits the slot |
| `SlotSafety.PreparedAfterCommitKeeps` | src/scp/Slot.cpp:331-357 | in the round that has just committed, PREPARED is sent without being stored and nothing recorded changes |
| `SlotSafety.CommittingKeeps` | src/scp/Slot.cpp:359-387 | sending COMMITTING keeps the invariants |
| `SlotSafety.CommittedKeeps` | src/scp/Slot.cpp:389-418 | committing records the one own COMMITTED, at the current ballot |
| `SlotSafety.AdvanceKeeps` | src/scp/Slot.cpp:630-807 | advancing, however many rounds it takes, keeps every invariant, only adds own statements and takes nothing back |
| `SlotSafety.AcceptInv` | src/scp/Slot.cpp:75-207 | processing an envelope keeps every invariant and changes no other record |
| `SlotVotes.PreparedMeans` | src/scp/Slot.cpp:437-519 | a ballot is prepared exactly when the node said so, or no local quorum avoids those who said so, or a quorum has PREPARING statements on record each of whose excepted ballots has the current value or is aborted for every quorum of that node |
| `SlotVotes.PreparedConfirmedMeans` | src/scp/Slot.cpp:521-545 | confirmed prepared means an own COMMITTING or a self-sufficient quorum of PREPARED on record |
| `SlotVotes.CommittedMeans` | src/scp/Slot.cpp:547-571 | committed means an own COMMITTED or a self-sufficient quorum of COMMITTING on record |
| `SlotVotes.CommittedConfirmedMeans` | src/scp/Slot.cpp:573-600 | a value is confirmed exactly when a self-sufficient quorum said COMMITTED for it, at whatever ballots |
| `SlotVotes.LeastPreparedIs` | src/scp/Slot.cpp:282-329 | the prepared ballot a PREPARING names is the least own PREPARED with the current value |
| `SlotVotes.RaiseIsLargest` | src/scp/Slot.cpp:708-740 | walking the known ballots finds the largest of the candidate and the committed ballots of its value; the ballot the slot moves to is `SlotMoves.FollowsToLeast` |
| `SlotVotes.UnpreparedIff` | src/scp/Slot.cpp:437-519 | a ballot without PREPARING and PREPARED is prepared exactly when the local threshold is zero or cannot be reached |
| `SlotVotes.UnknownBallotVisited` | src/scp/Slot.cpp:693-760 | visiting a ballot without statements, when the threshold can be reached, does nothing unless its value is confirmed at a known ballot, and then only follows that value |
| `SlotVotes.VoteRestsOnQuorums` | src/scp/Slot.cpp:655-690 | voting says COMMITTING only with a quorum of PREPARED on record and commits only with a quorum of COMMITTING on record |
| `SlotMoves.ExternalizesLeast` | src/scp/Slot.cpp:708-740 | the ballot chosen to follow a value is the least of that value that is not below the current ballot nor below any COMMITTED for the value on record |
| `SlotMoves.FollowsToLeast` | src/scp/Slot.cpp:708-748 | when a value is confirmed and no assertion fails, the slot commits at exactly that ballot |
| `SlotMoves.VisitMoves` | src/scp/Slot.cpp:691-761 | visiting a ballot, in terms of sets of nodes: a confirmed value is followed to its least reachable ballot, a ballot prepared above is moved to, one prepared at or below is said to be prepared, and otherwise nothing happens |
| `SlotMoves.AdvancePrepares` | src/scp/Slot.cpp:655-662 | an uncommitted slot that is advanced says PREPARING for the ballot it had |
| `SlotMoves.ProposeSays` | src/scp/Slot.cpp:209-229 | a proposal that does not fail puts the proposed value forward in an own PREPARING, with the next counter exactly when forced or when the value ranks below that of the ballot |
| `SlotMoves.PreparingSays` | src/scp/Slot.cpp:282-329 | a new PREPARING excepts exactly the ballots the node said COMMITTING for and names the least own PREPARED of its value, if there is one |
| `SlotMoves.HearingMeans` | src/scp/Slot.cpp:763-785 | the slot hears from a quorum exactly when a self-sufficient quorum has spoken about its ballot in whatever kind, each member counting with its most advanced statement |
| `SlotMoves.PassHears` | src/scp/Slot.cpp:630-807 | after a round the slot has heard if such a quorum has spoken, and only then or because it had heard and kept its ballot |
| `SlotEvents.DeliverRecordsIff` | src/scp/Slot.cpp:75-207 | unless an assertion fails, a statement is on record after it was delivered exactly when it was before, or its value is valid and it is a first COMMITTED of its node, or the slot is uncommitted and it is a PREPARING with a valid ballot, a PREPARED, or a COMMITTING whose PREPARED is on record and that no PREPARING of its node speaks against |
| `SlotEvents.DeliverKeepsOthers` | src/scp/Slot.cpp:75-207 | no other statement on record is lost or changed |
| `SlotEvents.DeliverAnswers` | src/scp/Slot.cpp:75-207 | which envelopes are answered INVALID, STATEMENTS_MISSING and VALID, each exactly, the PREPARING answered twice included |
| `SlotEvents.CommittedResends` | src/scp/Slot.cpp:192-203 | a committed slot sends its COMMITTED again on any valid statement but a COMMITTED, and changes nothing else |
| `SlotEvents.RefusedChangesNothing` | src/scp/Slot.cpp:75-186 | what is answered INVALID or STATEMENTS_MISSING leaves the slot as it was |
| `SlotEvents.RestLeavesNothing` | src/scp/Slot.cpp:630-690 | at rest nothing a quorum calls for is left undone: PREPARING, PREPARED, COMMITTING unless contradicted, the commit and the externalization |
| `SlotEvents.CommitsOnQuorum` | src/scp/Slot.cpp:630-807 | advancing commits only with a quorum of COMMITTING for the ballot, or of COMMITTED for its value, on record |
| `SlotQuiet.RestIsFixed` | src/scp/Slot.cpp:630-807 | a round on a slot at rest changes no statement, ballot or flag |
| `SlotQuiet.AdvanceRests` | src/scp/Slot.cpp:630-807 | the re-entrant advancement terminates and, unless an assertion failed, ends at rest |
| `SlotQuiet.AdvanceIdempotent` | src/scp/Slot.cpp:630-807 | advancing again at once changes nothing |
| `SlotAssertions.AdvanceSafe` | src/scp/Slot.cpp:691-761 | no assertion fails while advancing a slot whose prepared ballots are not above its own, the round that has just committed included |
| `SlotAssertions.DeliverFailsIff` | src/scp/Slot.cpp:75-255 | with a positive threshold, an envelope makes an assertion fail exactly when it is a COMMITTED that confirms a value the largest counter cannot move up to; an own envelope coming back never does |
| `SlotAssertions.ProposeFailsIff` | src/scp/Slot.cpp:209-255 | with a positive threshold, a proposal makes an assertion fail exactly when it has to increment the largest counter |
| `SlotZero.ZeroDeliverFailsIff` | src/scp/Slot.cpp:691-761 | with threshold 0, an envelope makes an assertion fail exactly when it is a valid PREPARED above the ballot an uncommitted slot commits at on hearing of it |
| `SlotZero.ZeroProposeSucceeds` | src/scp/Slot.cpp:209-255 | with threshold 0 no proposal makes an assertion fail |
| `SlotZero.ZeroThresholdFails` | src/scp/Slot.cpp:691-761 | a failing input: a fresh slot with threshold 0 and a PREPARED of counter two or more |
| `SlotZero.CommittedAdvances` | src/scp/Slot.cpp:693-699 | advancing a committed slot fails no assertion, whatever the threshold |
| `SlotExhaustion.CounterExhausts` | src/scp/Slot.cpp:209-255 | one PREPARING at the largest counter takes a fresh slot of a node that is no quorum by itself to rest, uncommitted, at that counter, and every forced proposal then fails |
| `SlotExhaustion.ExhaustionRun` | src/scp/Slot.cpp:209-255 | a run of a network of three events in which a correct slot's assertion fails |
| `SlotObject.Slot.constructor` | src/scp/Slot.cpp:62-73 | a new slot is pristine, at rest and satisfies the invariants |
| `SlotObject.Slot.ReceiveEnvelope` | src/scp/Slot.cpp:75-207 | an envelope from the network is on record afterwards exactly when it was or is one a slot takes in, and is answered accordingly; the object has the state of the transition `Deliver`, is at rest again and has only moved forward |
| `SlotObject.Slot.ProcessEnvelope` | src/scp/Slot.cpp:75-207 | the same method, entered from outside, where `SlotEvents.DeliverRecordsIff` and `SlotEvents.DeliverAnswers` say what it does, or from within the advancement, where it only stores and asks for another round |
| `SlotObject.Slot.PrepareValue` | src/scp/Slot.cpp:209-229 | a proposal is refused exactly after the commit; otherwise, unless an assertion fails, the own PREPARING for the proposed value at the right counter is on record, and the object has the state of `Propose` |
| `SlotObject.Slot.BumpToBallot` | src/scp/Slot.cpp:231-255 | the ballot is replaced, or the assertions over the stored statements fail, as the transition says |
| `SlotObject.Slot.AttemptPreparing` | src/scp/Slot.cpp:282-329 | the object stores and sends its PREPARING as the transition of that name says, through the re-entrant envelope processing |
| `SlotObject.Slot.AttemptPrepared` | src/scp/Slot.cpp:331-357 | the same for PREPARED of any ballot, before and after the commit |
| `SlotObject.Slot.AttemptCommitting` | src/scp/Slot.cpp:359-387 | the same for COMMITTING of the current ballot |
| `SlotObject.Slot.AttemptCommitted` | src/scp/Slot.cpp:389-418 | the slot is marked committed and the COMMITTED of the current ballot stored and sent |
| `SlotObject.Slot.TryBump` | src/scp/Slot.cpp:691-761 | what becomes of an uncommitted slot that visits a known ballot, as `SlotMoves.VisitMoves` says; the object has the state of the transition of the same name |
| `SlotObject.Slot.AdvanceSlot` | src/scp/Slot.cpp:630-807 | re-entered, it only asks for another round; entered from outside, it terminates in the state the transition system defines |
| `Network.AdvanceExternalizes` | src/scp/Slot.cpp:420-435 | a slot externalizes only a value for which it holds a transitive quorum of COMMITTED |
| `Network.ConfirmedIsBacked` | src/scp/Slot.cpp:573-600 | COMMITTED statements that confirm a value come from a quorum whose correct members have committed to it |
| `Network.StepKeeps` | src/scp/Slot.cpp:75-255 | every event of the network keeps the network invariant |
| `Network.Agreement` | src/scp/Slot.cpp:389-435 | in every run, if any two quorums of correct nodes share a correct node, no two correct slots externalize different values |
| `Network.AgreementOverTime` | src/scp/Slot.cpp:389-435 | the same for values externalized at different moments of a run |
| `Network.ThresholdIntersects` | src/scp/Node.cpp:25-45 | the sharing holds outright for one common threshold set whose 2t - n exceeds the number of faulty validators |
| `Network.RunForward` | src/scp/Slot.cpp:231-255 | along every run the ballot of a correct slot never decreases, and after the commit neither ballot nor commitment nor externalization changes |
| `Network.RunPreparingBelow` | src/scp/Slot.cpp:231-255 | in every run all stored PREPARING ballots are at most the current ballot |
| `Network.RunNeverContradicts` | src/scp/Slot.cpp:282-329 | in every run a correct node's PREPARING above a ballot it sent COMMITTING for lists that ballot as excepted |
| `Network.CommittingNeverInvalid` | src/scp/Slot.cpp:134-174 | whatever arrived before, no correct receiver answers INVALID to a correct node's COMMITTING for a value it accepts |
| `Network.FailureNeedsExhaustedCounter` | src/scp/Slot.cpp:231-255 | with positive thresholds, a slot of any run whose assertion fails was uncommitted with its ballot counter exhausted |
| `NetworkFailures.RunFailsIff` | src/scp/Slot.cpp:209-255 | in every run and for every threshold, the next event makes an assertion of a correct slot fail exactly when it is one of the events named |
| `NetworkProgress.RunSends` | src/scp/Slot.cpp:282-435 | whatever a correct node has said can arrive anywhere |
| `NetworkProgress.RunCommitsOnQuorum` | src/scp/Slot.cpp:389-418 | in every run a correct slot commits only with a quorum of COMMITTING for its ballot, or of COMMITTED for its value, on record |
| `NetworkProgress.TakesNext` | src/scp/Slot.cpp:630-807 | a slot that needs another node answers each statement of that node about the ballot with its own next one, and externalizes on the last |
| `NetworkProgress.PairExternalizes` | src/scp/Slot.cpp:389-435 | two correct nodes whose quorum set needs both have, for every value, a run in which both externalize it |
| `NetworkProgress.ThresholdTwoExternalizes` | src/scp/Node.cpp:25-45 | so it is with a threshold of two over two nodes |
| `Buckets.KeyOrderIsTotal` | src/bucket/LedgerCmp.h:30-115 | the identity order is a strict total order whose incomparable keys are equal |
| `Buckets.KeyOrderIs` | src/bucket/LedgerCmp.h:30-75 | accounts come before trust lines and those before offers; within a type the account decides, then the currency or offer number |
| `Buckets.SameKeyIff` | src/bucket/LedgerCmp.h:17-30 | entries have the same identity exactly when they are of one type and agree on all but their body |
| `Buckets.MergeSorted` | src/bucket/Bucket.cpp:370-427 | merging sorted buckets gives a strictly sorted bucket |
| `Buckets.FindMerge` | src/bucket/Bucket.cpp:340-427 | the merge holds for each key the newer entry if there is one, else the older, and nothing for a key found in a shadow |
| `Buckets.MaybePut` | src/bucket/Bucket.cpp:340-368 | although it returns early and leaves later shadow iterators behind, it puts an entry exactly when no shadow holds its key, and no iterator passes a key still to come |
| `Buckets.MergeBuckets` | src/bucket/Bucket.cpp:370-427 | the single pass computes the merge above, sorted |
| `Buckets.FreshCorrect` | src/bucket/Bucket.cpp:296-338 | a fresh bucket is sorted and holds, for duplicate-free inputs, the tombstone of a dead key and otherwise its live entry |
| `BucketLevels.SpillIff` | src/bucket/BucketList.cpp:154-195 | a level other than the last spills exactly at the multiples of half its size |
| `BucketLevels.SizeIsPower` | src/bucket/BucketList.cpp:154-165 | a level's size is 4^(level+1) and its half 2 * 4^level |
| `BucketLevels.SpillsEvery` | src/bucket/BucketList.cpp:154-195 | level i spills exactly at the multiples of 2 * 4^i, the last level never |
| `BucketLevels.WrapKeepsMultiples` | src/bucket/BucketList.cpp:118-135 | the 32-bit wrap of the next change ledger does not change whether a level spills at it |
| `BucketTiling.RangesTile` | src/bucket/BucketList.cpp:247-296 | the ledger ranges of curr0, snap0, curr1, snap1, ... follow each other without gap or overlap, and below the last level none spans more than half its level |
| `BucketTiling.RangesSpill` | src/bucket/BucketList.cpp:142-152 | when a level spills, its snap takes over the range of its curr |
| `BucketTiling.MergeCovers` | src/bucket/Bucket.cpp:370-427 | merging neighbouring ranges stands for their union; what shadows drop was written again later |
| `BucketTiling.SkipIff` | src/bucket/BucketList.cpp:108-139 | the curr of a level is left out of a merge exactly when the level will itself have been snapped at the ledger the merge is committed |
| `BucketTiling.AddBatchKeeps` | src/bucket/BucketList.cpp:203-297 | one ledger close keeps every bucket and every pending merge standing for its range |
| `BucketTiling.AfterOK` | src/bucket/BucketList.cpp:203-297 | so does every run of consecutive ledgers from 1 |
| `BucketContents.SpillDropsShadowed` | src/bucket/BucketList.cpp:247-290 | when a level spills, the merge prepared above it resolves to no key that a curr or snap of the levels below the spilling one held before the close, and to every other key of its two inputs, the spilled bucket overriding |
| `BucketContents.CloseDropsShadowed` | src/bucket/BucketList.cpp:203-290 | a ledger close on sorted buckets does so at every level at once |
| `BucketContents.SpillMoves` | src/bucket/BucketList.cpp:96-152 | a spilling level's snap is its old curr, a level spilled into has its pending merge as curr, and no other level changes |
| `BucketContents.HeldBelowIff` | src/bucket/BucketList.cpp:203-297 | after a run, the buckets of the first levels hold exactly the keys written in the ledgers they stand for |
| `BucketContents.PendingIs` | src/bucket/BucketList.cpp:108-139 | after every run, the pending merge of a level resolves for each key to the latest write in its ledgers, unless the key was written again before the ledger at which it was prepared |
| `BucketContents.CurrIs` | src/bucket/BucketList.cpp:96-106 | after every run, so does the curr of a level above 0, with the merge before |
| `BucketContents.CurrEmptyEarly` | src/bucket/BucketList.cpp:96-106 | until a level's second merge is prepared its curr is empty |
| `BucketContents.FirstCurrIs` | src/bucket/BucketList.cpp:291-297 | after every run, curr0 holds exactly the latest writes of its ledgers |
| `BucketContents.SnapIs` | src/bucket/BucketList.cpp:142-152 | after every run, the snap of a level is its curr from before its last spill |
| `BucketLookup.LookupIsLatest` | src/bucket/BucketList.cpp:203-297 | after every run the newest-first lookup gives each key exactly its latest value or tombstone |
| `BucketLookup.HeldInItsRange` | src/bucket/BucketList.cpp:203-297 | what was written at one ledger only is held by exactly the bucket whose range contains that ledger |
| `BucketLookup.ExactlyOneRange` | src/bucket/BucketList.cpp:247-296 | every ledger closed so far lies in the range of exactly one bucket: no batch is lost or held twice |
| `BucketLookup.ListRefinesMap` | src/bucket/BucketList.cpp:203-297 | after every ledger the lookup and a plain map agree on every key |
| `FutureBuckets.BucketManager.GetBucketByHash` | src/bucket/BucketManagerImpl.cpp:190-220 | the bucket of a hash, from memory or from its file, and exactly what is remembered for later |
| `FutureBuckets.FutureBucket.Merging` | src/bucket/FutureBucket.cpp:22-43 | a merge just started satisfies `checkState` and stands for the merge of its inputs |
| `FutureBuckets.FutureBucket.Resolve` | src/bucket/FutureBucket.cpp:211-229 | resolving keeps only the output, which is what the inputs merge to |
| `FutureBuckets.FutureBucket.MakeLive` | src/bucket/FutureBucket.cpp:304-331 | a hash-only merge comes back to life exactly when its files are there, in a state that passes `checkState` |
| `FutureBuckets.FutureBucket.Save` | src/bucket/FutureBucket.h:149-174 | what is saved is the hashes of inputs or output, by state |
| `FutureBuckets.FutureBucket.Load` | src/bucket/FutureBucket.h:125-147 | loading succeeds exactly on hash-only records and clear ones and passes `checkState` |
| `BucketListObject.BucketLevel.Commit` | src/bucket/BucketList.cpp:96-106 | a live merge becomes the new curr; otherwise nothing happens |
| `BucketListObject.BucketLevel.Prepare` | src/bucket/BucketList.cpp:108-139 | a new merge of curr (unless about to be snapped), snap and shadows; what it resolves to is `BucketContents.SpillDropsShadowed` |
| `BucketListObject.BucketLevel.Snap` | src/bucket/BucketList.cpp:142-152 | curr moves to snap |
| `BucketListObject.BucketList.SpillInto` | src/bucket/BucketList.cpp:247-290 | one spill touches the two levels concerned and no other |
| `BucketListObject.BucketList.Spill` | src/bucket/BucketList.cpp:203-290 | the countdown loop with its shrinking shadow vector treats every level as it was before the close |
| `BucketListObject.BucketList.AddBatch` | src/bucket/BucketList.cpp:203-297 | a ledger close on the object is the ledger close on values that the refinement is proved of, and it drops exactly what newer levels shadow |
| `BucketListObject.BucketList.Save` | src/history/HistoryArchive.cpp:76-87 | copies of ready merges are resolved and the list is saved by hashes, itself unchanged |
| `BucketListObject.BucketList.AssumeLevels` | src/bucket/BucketManagerImpl.cpp:319-336 | each saved level is put in place, failing exactly when a file is missing |
| `BucketListObject.BucketList.RestartMerges` | src/bucket/BucketList.cpp:299-316 | every hash-only merge is brought back to life |
| `BucketListObject.BucketList.AssumeState` | src/bucket/BucketManagerImpl.cpp:319-336 | together they restore exactly the saved list |
| `BucketRestart.SavedHashIsListHash` | src/history/HistoryArchive.cpp:163-184 | the hash computed from the saved list is the hash of the list |
| `BucketRestart.TrustedArchiveIff` | src/history/HistoryArchive.cpp:163-184 | with collision-free combining, a saved list has the hash of a list exactly when it names the hash of every curr and every snap of it |
| `BucketRestart.ListHashIff` | src/bucket/BucketList.cpp:28-36 | with collision-free hashing, two lists have the same hash exactly when every curr and every snap is the same |
| `BucketRestart.SavesFinished` | src/bucket/FutureBucket.h:149-174 | a pending merge is saved by its output's hash exactly when it has finished, otherwise by the hashes of its inputs |
| `BucketRestart.RestoredSame` | src/bucket/FutureBucket.h:125-174 | a saved and restored level is equivalent to the original, whether its merge had finished or not |
| `BucketRestart.AddBatchSame` | src/bucket/BucketList.cpp:203-297 | a ledger close keeps equivalent lists equivalent |
| `BucketRestart.RestartIsInvisible` | src/bucket/BucketManagerImpl.cpp:319-336 | saved at any moment with any subset of merges finished, the restored list equals the uninterrupted one now and after any further closes, hash included |
| `BucketRestart.RestartedRun` | src/bucket/BucketList.cpp:299-316 | over whole runs: at every later ledger the restarted node has the uninterrupted node's hash and finds each key's latest write |
| `BucketReplay.ApplyBucket` | src/bucket/Bucket.cpp:269-294 | applying a bucket file succeeds exactly when it does not end in a tombstone, and then writes its entries |
| `BucketReplay.ApplyBuckets` | src/history/CatchupStateMachine.cpp:705-736 | the reverse loop compares hashes, replays everything from the oldest difference on, snap before curr, takes over the archived levels, and fails exactly when a replayed bucket is missing or ends in a tombstone |
| `BucketReplay.ApplyBucketsAt` | src/history/CatchupStateMachine.cpp:678-740 | nothing is replayed unless the archived list has the hash the trusted ledger names and belongs to that ledger; with collision-free hashing the hash of a list lets only an archive through that names all its curr and snap buckets, and the list rebuilt has exactly these; afterwards every merge is restarted |
| `BucketReplay.ReplayByContents` | src/history/CatchupStateMachine.cpp:705-736 | with collision-free hashing, comparing and fetching by hash replays exactly the archived buckets from the oldest difference on |
| `BucketReplay.CatchupRebuildsRun` | src/history/CatchupStateMachine.cpp:678-740 | a fresh node caught up from the archive of a run, saved with any subset of merges finished, has the run's database, an equivalent list, and the run's hash at every later ledger |
| `BucketReplay.ApplyEachWrites` | src/history/CatchupStateMachine.cpp:705-736 | replay gives each key of the replayed buckets its newest value and leaves every other key alone |
| `BucketReplay.NewestIsLookup` | src/history/CatchupStateMachine.cpp:705-736 | replay order, oldest first, and newest-first lookup agree |
| `BucketReplay.ReplayRebuildsDatabase` | src/history/CatchupStateMachine.cpp:705-736 | on an empty database replay rebuilds exactly the map of the run |
| `BucketReplay.TombstoneReplayFails` | src/bucket/Bucket.cpp:269-294 | a ledger that only deletes leaves a bucket that cannot be replayed |
| `Base58.NumberAndLeadingUnique` | src/crypto/Base58.cpp:22-72 | a digit string is determined by its number and its count of leading zeros |
| `Base58.Absorb` | src/crypto/Base58.cpp:22-72 | taking one more digit in multiplies and adds exactly, and no 16-bit cell overflows on the way |
| `Base58.BaseEncode` | src/crypto/Base58.cpp:22-72 | the text has the same number and the same leading zeros as the bytes, for all byte strings |
| `Base58.BaseDecode` | src/crypto/Base58.cpp:74-137 | fails exactly on a character outside the alphabet, otherwise gives bytes whose encoding is the text |
| `Base58.EncodingIsOneToOne` | src/crypto/Base58.cpp:22-137 | encodings are equal exactly when the byte strings are |
| `Base58.DecodeOfEncode` | src/crypto/Base58.cpp:22-137 | decoding an encoding gives the bytes back |
| `Base58.EncodeOfDecode` | src/crypto/Base58.cpp:22-137 | encoding a decoding gives the text back |
| `Base58.BaseCheckEncode` | src/crypto/Base58.cpp:139-149 | the text encodes version, payload and checksum |
| `Base58.BaseCheckDecode` | src/crypto/Base58.cpp:151-168 | succeeds exactly on the texts of sealed payloads and gives version and payload back |
| `LedgerDeltas.AddRecorded` | src/ledger/LedgerDelta.cpp:69-87 | adding a key absent from the view fails no assertion and adds it to the view |
| `LedgerDeltas.DeleteRecorded` | src/ledger/LedgerDelta.cpp:96-113 | deleting a key of the view fails no assertion and removes it from the view |
| `LedgerDeltas.ModifyRecorded` | src/ledger/LedgerDelta.cpp:115-140 | modifying a key of the view fails no assertion and replaces its entry |
| `LedgerDeltas.FailsIff` | src/ledger/LedgerDelta.cpp:69-140 | a delete or an update fails exactly when the change set itself took the key out of its base, an addition exactly when the key is there because the change set put it there or updated it |
| `LedgerDeltas.MergeRecorded` | src/ledger/LedgerDelta.cpp:142-176 | merging a nested change set fails no assertion and stands for both in turn |
| `LedgerDeltas.RecordCorrect` | src/ledger/LedgerDelta.cpp:69-183 | for any tree of nested change sets whose operations fit what they change, no assertion fails and the record stands for running only the committed operations in order |
| `LedgerDeltas.HandedOn` | src/ledger/LedgerDelta.cpp:210-241 | live and dead entries are a duplicate-free batch, and closing a ledger with it gives the view |
| `LedgerDeltas.RootHandsOn` | src/ledger/LedgerDelta.cpp:210-241 | a root's live and dead entries applied to the base ledger equal running the committed operations; rolled-back children leave no trace |
| `LedgerDeltaObject.LedgerDelta.AddEntry` | src/ledger/LedgerDelta.cpp:69-87 | a delete followed by an add becomes an update; exactly when it throws or asserts; created, modified and deleted keys stay disjoint |
| `LedgerDeltaObject.LedgerDelta.DeleteEntry` | src/ledger/LedgerDelta.cpp:96-113 | deleting a new entry forgets it; exactly when it throws or asserts; the three kinds stay disjoint |
| `LedgerDeltaObject.LedgerDelta.ModEntry` | src/ledger/LedgerDelta.cpp:115-140 | modifying a new entry keeps it new; exactly when it throws or asserts; the three kinds stay disjoint |
| `LedgerDeltaObject.LedgerDelta.MergeEntries` | src/ledger/LedgerDelta.cpp:142-158 | the three loops, in any order of keys, compute the merge, and fail exactly when one step fails, with part of the pass that failed carried out |
| `LedgerDeltaObject.LedgerDelta.Commit` | src/ledger/LedgerDelta.cpp:160-176 | exactly when it throws or asserts; otherwise the outer object holds the merge, the header is published and the object closed |
| `LedgerDeltaObject.LedgerDelta.Rollback` | src/ledger/LedgerDelta.cpp:178-183 | closes the object and changes nothing else |
| `LedgerDeltaObject.LedgerDelta.GetLiveEntries` | src/ledger/LedgerDelta.cpp:210-227 | every created entry in key order, then every modified one in key order, each once |
| `LedgerDeltaObject.LedgerDelta.GetDeadEntries` | src/ledger/LedgerDelta.cpp:229-241 | every deleted key, once, in key order |
| `LedgerDeltaObject.Perform` | src/ledger/LedgerManagerImpl.cpp:584-632 | carrying a tree of operations out on nested objects records what the tree semantics says |
| `LedgerDeltaObject.CloseRoot` | src/ledger/LedgerManagerImpl.cpp:571-672 | a root change set opened on a header, given a tree of fitting operations and committed never fails; its header and its batch are what running only the committed operations gives |
| `LedgerRuns.ListHoldsCommittedWork` | src/ledger/LedgerManagerImpl.cpp:559-638 | from transactions to the bucket list: at every ledger the lookup and the committed operations run in order agree on every key |
| `TxSets.SeqTestRejectsRepeats` | src/transactions/TransactionFrame.cpp:232-240 | the real sequence test rejects a repeated nonzero number, 64-bit wrap included |
| `TxSets.ChainIsConsecutive` | src/transactions/TransactionFrame.cpp:232-240 | with the real sequence test and nothing else asked, an account's transactions chain up exactly when their numbers continue the account's without a gap |
| `TxSets.ValidSetIff` | src/herder/TxSetFrame.cpp:195-254 | validity spelled out: the last closed ledger is named, hashes ascend, and for every account each transaction is valid after its predecessor and the balance covers all its fees and the minimum balance |
| `TxSets.KeptIsGreedy` | src/herder/TxSetFrame.cpp:153-188 | trimming keeps a transaction exactly when it is valid after the last one kept before it, whatever was dropped in between |
| `TxSets.AccountOrderIrrelevant` | src/herder/TxSetFrame.cpp:222-252 | for such a test, the order in which equal sequence numbers are met does not change the verdict on an account |
| `TxSets.TrimmedIsValid` | src/herder/TxSetFrame.cpp:136-254 | a trimmed set passes the validity test on top of the last closed ledger: hash order, chains and affordability survive the removals |
| `TxSets.ValidIsNotTrimmed` | src/herder/TxSetFrame.cpp:136-254 | trimming a valid set removes nothing |
| `TxSets.TrimmingOnlyRemoves` | src/herder/TxSetFrame.cpp:136-190 | trimming adds nothing and leaves an account alone whose transactions are all right |
| `TxSets.RemovalOutdatesHash` | src/herder/TxSetFrame.cpp:256-280 | with collision-free hashing, a hash kept across an erasure is wrong exactly when the transaction was there |
| `TxSets.Batches` | src/herder/TxSetFrame.cpp:97-116 | batch i holds exactly each account's i-th transaction, the vector growing as needed |
| `TxSets.AppendLayered` | src/herder/TxSetFrame.cpp:120-130 | appending the next batch in any inner order keeps every account's i-th before every account's (i+1)-th |
| `TxSetObject.TxSetFrame.SortForHash` | src/herder/TxSetFrame.cpp:44-49 | the same transactions in hash order |
| `TxSetObject.TxSetFrame.GetContentsHash` | src/herder/TxSetFrame.cpp:264-280 | the list is sorted and hashed unless a hash is held; if a held hash was right, the answer is the hash of the list |
| `TxSetObject.TxSetFrame.RemoveTx` | src/herder/TxSetFrame.cpp:256-262 | the first occurrence is erased, if any, and exactly when a held hash stays right |
| `TxSetObject.TxSetFrame.SortForApply` | src/herder/TxSetFrame.cpp:92-133 | a permutation of the set, ascending per account, every account's i-th transaction before every account's (i+1)-th, the i-th ones ordered by their hashes mixed with the set's hash |
| `TxSetObject.TxSetFrame.CheckValid` | src/herder/TxSetFrame.cpp:195-254 | for a test that rejects repeats, the answer is exactly validity of the set |
| `TxSetObject.TxSetFrame.TrimAccount` | src/herder/TxSetFrame.cpp:153-188 | one account keeps what one pass keeps, or nothing when it cannot pay; no other account is touched and hash order stays |
| `TxSetObject.TxSetFrame.TrimInvalid` | src/herder/TxSetFrame.cpp:136-190 | every account is trimmed that way and the list is in hash order |
| `TxSetObject.TxSetFrame.Append` | src/herder/TxSetFrame.h:48-53 | the transaction is added at the end and a held hash dropped |
| `TxSetObject.ProposedSet` | src/herder/HerderImpl.cpp:1064-1084 | the set a node proposes adds nothing to what it received, is valid on the last closed ledger, and its hash is the hash of its contents |
| `LedgerChain.NextCheckpointIff` | src/history/HistoryManagerImpl.cpp:227-239 | the next checkpoint is the first multiple at or above the ledger exactly when the 32-bit sum does not wrap, and 0 otherwise |
| `LedgerChain.FirstCheckpoint` | src/history/HistoryManagerImpl.cpp:227-239 | the next checkpoint of ledger 0 is that of ledger 1 |
| `LedgerChain.ReplayExact` | src/ledger/LedgerManagerImpl.cpp:466-543 | a buffer contiguous from a ledger not above the next one is closed from there on, each ledger once and in order, unless knit-up or a link fails; no overshoot |
| `LedgerChain.OvershootIff` | src/ledger/LedgerManagerImpl.cpp:500-532 | the overshoot branch is taken exactly when the first buffered ledger lies beyond the next one to close |
| `LedgerChain.CheckpointOverlaps` | src/ledger/LedgerManagerImpl.cpp:500-532 | with the ledger before the rounded-up checkpoint, a buffer that began with the triggering ledger always overlaps |
| `LedgerChain.TrustedIff` | src/ledger/LedgerManagerImpl.cpp:388-431 | the manager knows a hash for exactly the last closed ledger, the one before it, and the ledgers before the buffered ones |
| `LedgerChain.TrustedIs` | src/ledger/LedgerManagerImpl.cpp:388-431 | which hash that is: the last closed ledger's, the one it names for its predecessor, or the one the buffered successor names |
| `LedgerChain.ApprovedOvershoot` | src/ledger/LedgerManagerImpl.cpp:388-431 | an approved candidate that makes replay overshoot is the last closed ledger or the one before it |
| `LedgerChain.RestartNeverOvershoots` | src/history/CatchupStateMachine.cpp:475-523 | a catch-up restarted beyond the next ledger never overshoots with an approved candidate |
| `LedgerChain.RestartUnknown` | src/ledger/LedgerManagerImpl.cpp:423-430 | with a buffer from the ledger after its start, a restarted catch-up is answered unknown exactly when it started at a checkpoint or the buffer does not reach its candidate yet |
| `LedgerChain.ApprovedFirstCloses` | src/ledger/LedgerManagerImpl.cpp:493-499 | the first replayed close of an approved candidate beyond the last closed ledger connects |
| `LedgerChain.ApprovedCandidateConnects` | src/ledger/LedgerManagerImpl.cpp:388-431 | a candidate is approved against the buffer exactly when the first ledger to be replayed names its hash |
| `LedgerChain.ScanAcceptsIff` | src/history/CatchupStateMachine.cpp:569-601 | headers without prehistory are all accepted exactly when they form an unbroken, correctly hashed chain |
| `LedgerChain.PrehistoryIgnored` | src/history/CatchupStateMachine.cpp:580-585 | headers of ledgers already passed change nothing, wherever they occur |
| `LedgerChain.ScanRejects` | src/history/CatchupStateMachine.cpp:580-599 | any other header that does not continue the chain spoils the whole download, whatever follows |
| `LedgerChain.VerifiedChain` | src/history/CatchupStateMachine.cpp:559-611 | an OK verdict means an unbroken, correctly hashed chain from the last closed ledger to the one before `next`, ending in the hash the ledger manager trusts |
| `LedgerChain.VerifyIff` | src/history/CatchupStateMachine.cpp:559-611 | the verdict is OK exactly when the headers scanned reach the ledger before `next` and end in the trusted hash, and unknown exactly when only that hash is not known |
| `LedgerChain.ClosedIs` | src/ledger/LedgerManagerImpl.cpp:632-661 | a closed ledger is correctly hashed, continues the chain, and carries what consensus decided and what the transactions made of it |
| `LedgerChain.KnitsToItsOwn` | src/ledger/LedgerManagerImpl.cpp:474-490 | buffered data passes the knit-up test on a ledger exactly when it says what the ledger was closed with |
| `LedgerChain.ClosedChainVerifies` | src/history/CatchupStateMachine.cpp:559-611 | whatever a node closes is a chain that verification accepts |
| `LedgerChain.VerifiedDownloadsAgree` | src/history/CatchupStateMachine.cpp:559-611 | with collision-free hashing, two verified downloads towards the same ledger agree header for header |
| `LedgerManagerObject.VerifyLedgerHistoryEntry` | src/history/CatchupStateMachine.cpp:525-539 | OK exactly when the header hashes to what is claimed |
| `LedgerManagerObject.VerifyLedgerHistoryLink` | src/history/CatchupStateMachine.cpp:541-557 | OK exactly when moreover it names the hash of its predecessor |
| `LedgerManagerObject.VerifyHistoryFromLastClosedLedger` | src/history/CatchupStateMachine.cpp:559-611 | the loops over all files give the verdict the chain lemmas are about, and on OK the chain accepted |
| `LedgerManagerObject.LedgerManager.CloseLedger` | src/ledger/LedgerManagerImpl.cpp:559-647 | refused on a hash mismatch; otherwise the new ledger is closed and current is the one after it |
| `LedgerManagerObject.LedgerManager.AdvanceLedgerPointers` | src/ledger/LedgerManagerImpl.cpp:649-661 | the current header becomes the last closed one, and current the one after it |
| `LedgerManagerObject.LedgerManager.StartCatchUp` | src/ledger/LedgerManagerImpl.cpp:376-386 | the state changes even when a catch-up is already under way, which is refused; a manual start or a restart keeps the object valid, and a manual one keeps it orderly |
| `LedgerManagerObject.LedgerManager.ExternalizeValue` | src/ledger/LedgerManagerImpl.cpp:300-374 | the next ledger is closed, any other starts catch-up; while catching up the buffer stays contiguous from the ledger that triggered it |
| `LedgerManagerObject.LedgerManager.VerifyCatchupCandidate` | src/ledger/LedgerManagerImpl.cpp:388-431 | the verdict against the hash known for that ledger |
| `LedgerManagerObject.LedgerManager.HistoryCaughtup` | src/ledger/LedgerManagerImpl.cpp:433-545 | the whole new state in every outcome. However catch-up was started, and unless the 32-bit successor of the ledger wraps, it overshoots exactly when the buffer begins beyond the next ledger and otherwise closes exactly the remaining buffered ledgers in order up to the tip. With the ledger before the checkpoint, a triggered catch-up never overshoots. An overshoot restarts catch-up beyond the next ledger |
| `LedgerManagerObject.ExternalizeAll` | src/ledger/LedgerManagerImpl.cpp:341-369 | while catching up, no sequence of externalized values closes a ledger or starts a catch-up; only the buffer grows |
| `LedgerManagerObject.ExtendedBuffer` | src/ledger/LedgerManagerImpl.cpp:341-369 | while catching up, a close is buffered exactly when the buffer stays without a gap |
| `CatchupObject.ApplyHeader` | src/history/CatchupStateMachine.cpp:813-912 | one header of a history: passed over, closed, or one of the exceptions |
| `CatchupObject.PassageIff` | src/history/CatchupStateMachine.cpp:813-912 | with collision-free hashing, a header is closed exactly when it is the very ledger that closing with its transaction set makes, and passed over exactly when it lies further back or is the last closed ledger or the one before |
| `CatchupObject.OwnHistoryReproduces` | src/history/CatchupStateMachine.cpp:776-914 | what one node closed, a node that stands where it began can apply, header for header |
| `CatchupObject.ApplyHistory` | src/history/CatchupStateMachine.cpp:776-914 | for a download that verification accepts, and as long as no number wraps, exactly the accepted ledgers are closed, one by one with the contents of their headers, and the manager ends at the last of them; history that closes to the ledgers it claims is applied to the end |
| `CatchupObject.AutomaticNeverOvershoots` | src/ledger/LedgerManagerImpl.cpp:500-532 | no automatic catch-up, triggered or restarted, overshoots with an approved candidate |
| `CatchupObject.FinishMinimal` | src/history/CatchupStateMachine.cpp:489-523 | in minimal mode nothing changes unless the last header downloaded is the one before the checkpoint and is approved; then no automatic catch-up overshoots, the first replayed close connects, and the replay is exact |
| `CatchupObject.FinishComplete` | src/history/CatchupStateMachine.cpp:483-523 | the same in complete mode, approval being judged before the history is applied; verified history that closes to the ledgers it claims is applied, handed back and replayed onto; with nothing to apply the manager's assertion fails |
| `CatchupObject.WaitsForEver` | src/history/CatchupStateMachine.cpp:515-519 | a catch-up restarted at a checkpoint that hears of the ledger after it first stays unapproved, whatever it hears of and downloads |
| `CatchupObject.OvershootOnce` | src/ledger/LedgerManagerImpl.cpp:500-532 | a manager that overshoots after a manual start, and then waits |

## Left out

- Asynchronous validator callbacks and Herder timers: the slot's invariants are for answers given at once.
- Liveness of consensus under every schedule (`PairExternalizes` gives runs that externalize), slot purging and re-creation, a local quorum set that changes during a slot.
- The claim that correct nodes never send COMMITTED for different values: `isPrepared` compares excepted ballots with the current value (src/scp/Slot.cpp:473), and agreement does not depend on it.
- The quorum set cache and quorum sets that are not known yet: every quorum set can be looked up.
- The output-only `FutureBucket` constructor, which leaves a state that `checkState` rejects.
- Statement-map entries without statements, which looking a ballot up creates: known ballots are those with a statement. `UnknownBallotVisited` says what visiting such an entry would do.
- Bucket file ownership, retain flags, reference counts and `forgetUnreferencedBuckets`.
- The transaction-history files: `ApplyHistory` is given each ledger's transaction set instead of reading past older ones in a stream.
- Failures of the bucket replay inside a minimal catch-up: `FinishMinimal` speaks of the ledger manager, `ApplyBucketsAt` of buckets and database.
- Transaction bodies and fee arithmetic in 64 bits: the transaction test, fees and balances are arbitrary functions over unbounded integers.
- The `trimmed` argument of `trimInvalid`, which is passed by value and reports nothing.
- Sockets, peers, subprocesses, SQL text, XDR marshalling, signatures, HTTP commands, configuration, logging and metrics.
- File transfer states and retries of catch-up and publication, `PendingEnvelopes`, `Floodgate`, `ItemFetcher`.
