# Verified model of the message server's state machines

This project models, in Dafny 4.11, the parts of the message server that hold state under
concurrency: the group log and its submit transaction, the link boxes and their sweep, the two push
registries and their delivery loop, the fragment joiner, and two small cores that tie a client's
arithmetic and a request's shape to what the server does with them. It proves what those parts
promise over every run, every interleaving and every input.

`dafny verify dfyconfig.toml` checks everything.

## How it is laid out

Each component has three layers.

1. **Steps on values.** Datatypes for the state and functions for each operation, with the source's
   branches, constants and error answers: `GroupTransaction`, `GroupFetch`, `ClassMasks`,
   `LinkBoxes`, `Reassembly`, `Fragments`, `Subscriptions`, `RendezvousPush`, `Retention`,
   `EphWindow`, `EpochKeys`, over `Records` and `Common`.
2. **Runs.** State machines whose events are those steps, interleaved where the source takes and
   drops its locks, with the invariants of every reachable state and the theorems that follow:
   `GroupLog`, `GroupBatch`, `GroupRuns`, `GroupTheorems`, `GroupAnswers`, `EpochCustody`,
   `LateCommits`; `LinkBoxRuns`, `LinkBoxHistory`, `LinkBoxDivergence`, `LinkBoxLedger`,
   `LinkBoxLives`; `SubscriptionRuns`, `SubscriptionMarks`,
   `StalePushes`; `RendezvousRuns`, `RendezvousTheorems`; `Announcements`, `StoreAndPush`,
   `PushAndFetch`, `MissedPush`, which run the group's store beside the push registry; and
   `BoxesAndPush`, `DepositPushes`, `LateTellings`, which run the link boxes beside theirs.
3. **Code.** Classes with the source's own fields and loops, each method proved to do exactly what
   the step says: `MemoryGroup`, `LinkBoxStore`, `SweepJob`, `Reassembler`, `ClientJoiner`,
   `SubscriptionRegistry`, `RendezvousRegistry`, `ExpiryHeap`.

## Conventions

- An object that the source compares by pointer (a subscription) is the number it was allocated
  under; two objects are the same exactly when their numbers are.
- A hash is carried beside the bytes it is of, as a value. Nothing assumes a hash is injective.
- A clock reading, a signature's verdict, a digest's verdict and a push's delivery are parameters.
- `int` and `nat` are unbounded. Wrap-around is written out where it decides something: the 32-bit
  fragment count and the 64-bit window distance.

## Where the code and its promise differ

- **Cutting and joining.** Both cutters narrow the part count to 32 bits. Joining gives the body
  back when the count fits (`ServerJoinsWhatWasCut`, `ClientJoinsWhatWasCut`) and never does when it
  does not (`WrappedCountNeverJoins`), so the condition is exact: the count fits exactly while the
  body is at most 2^32 - 1 parts long (`CountFitsExactly`), and the first body to fail is one octet
  longer.
- **The sweep.** A run with sweeps and the same run without answer alike but at Registers. One at an id
  the sweep has reclaimed always answers differently (`RegisterSeesReclaim`, `UnsweptIsRefused`); once the runs have parted,
  the cap on live boxes may part another. Everything at an id no such Register named goes on answering
  alike (`SweepingPartsOnlyRegisters`).
- **A write after a read.** A write is tied to a box's keys and not to the box. After a sweep and a new
  Register with the same keys it is acted on in the later life (`ActedOnInALaterLife`); `WriteAfterRead`
  says exactly when it acts, on the same life and on a later one.
- **A push that tells nothing new.** A ready mark outlives its reason, in two ways: the subscription is
  made again under the mark (`PushedItsSnapshotWhenMadeAgain`), or a publish finds it due while its own
  push is on the wire with all it is owed (`PushedTwiceWhenOvertaken`). `NewExactlyWhenMarkedFor` shows
  these are the only two.
- **Between snapshot and registration.** A record stored and announced after a subscriber's snapshot was
  read and before the subscriber is registered is one it has not been told of
  (`MissedBetweenReadAndRegistration`), and is not told of until a retry announces it again
  (`UnheardUntilPublished`). One announced after the registration is told. `UnheardExactly`
  names the rows a subscriber has not been told of, and `OwedIsTheFetchHighWater` when its high water is
  the right one regardless.
- **What a retry announces.** A submission announces each accepted record at the epoch its own header
  names, because the idempotency probe compares hashes and not epochs. Of a record stored before that is
  true of the log exactly when the retry names the row's epoch (`AnnouncedTrueExactly`). A retry under
  another epoch is accepted (`RetryUnderAnotherEpoch`), and one under a lower epoch can raise a
  subscriber past its ceiling (`RetryRaisesPastTheCeiling`).
- **A telling after its write.** A deposit or a retire is written under the store's lock and told to the
  registry later, under the registry's, by the box's id alone. Every deposit is told or still to be told
  (`EveryDepositIsTold`), but two told in the other order leave the older count on the push
  (`ToldOutOfOrder`); `CountIsRightExactly` says when the count told is the count waiting. A retire told
  after a sweep and a new Register at the id ends the subscriptions of the later life
  (`RetireToldInALaterLife`); `RetireEndsItsOwnExactly` says when it ends those of its own.
- **The clamp's notice.** It is given exactly when the stored policy is not the one asked for, but for a
  server configured with a maximum below its minimum (`ClampedMeansMoved`, `ClampedThoughUnmoved`).
- **Null entries in `epoch_keys`.** The comment in `api/epochkeys.go` admits two lengths only. The
  code also passes a full-length list of null entries beside ordinary records, which the wire cannot
  carry (`NullEntriesPass`); `OnlyTwoLengths` holds exactly for lists without null entries.

## Model

| member | source | states |
|---|---|---|
| GroupTheorems.FoundedInv | store/memory.go:366-428 | the group a founding commit opens satisfies the whole log invariant |
| GroupTheorems.EveryRunKeepsTheLog | store/memory.go:443-559 | in every interleaving of submits, closes and readers from a founding commit the log invariant, the row lock's exclusivity and the soundness of every answer and every reader hold |
| GroupTheorems.AcceptancesNameOneRow | store/memory.go:474-559 | all acceptances of one (sender, stream index), in any interleaving, name one id, the only row holding that index, with the accepted content |
| GroupTheorems.StaleProbeIsRefused | store/memory.go:595-669 | a record the probe found absent and that has been claimed since is refused by the gates, and the whole batch with it |
| GroupTheorems.StaleSubmissionIsRefused | store/memory.go:509-556 | in any reachable system a submission under the lock with a stale probe can only end refused |
| GroupTheorems.OnlyWholeAcceptancesWrite | store/memory.go:832-845 | closing apart, a step changes the group at all only for a submission every record of which it accepts, so a response holding a refusal changed nothing |
| GroupTheorems.AcceptedStaysIdempotent | store/memory.go:474-500 | a fully accepted submission, sent again after any later run, closed or not, is accepted under its original ids and changes nothing |
| GroupTheorems.RetryIsAcceptedAlike | store/memory.go:474-500 | and among other calls: in every run from there, a call with the same records that had not probed when the first was accepted throughout never takes the row lock, and once answered is accepted throughout under the same ids |
| GroupAnswers.RecordShapedExactly | store/memory.go:1030-1129 | a record passes its shape checks if and only if none of nine things is wrong with it, and is refused with the first that is; the window is for the classes 17 to 21 |
| GroupAnswers.BatchShapedExactly | store/memory.go:447-466 | a batch passes if and only if it has records, each is shaped and a commit is alone, the first misshaped record's error going before a commit's |
| GroupAnswers.ProbeReadsTheLog | store/memory.go:568-588 | the probe finds a record absent if and only if no row of the log has its sender and index, identical to a row exactly when that row has its hashes, and different exactly when the row has others |
| GroupAnswers.SubmissionIsAnswered | store/memory.go:443-559 | in every sound open group, a shaped batch the probe leaves unsettled is accepted throughout if and only if each unsettled record names the current epoch, its marker stands or the record is a wrap or marker, commit and attachment agree and a commit's opens the next epoch with keys of full width, its index is above every one its sender has in the log and before it in the batch, and no row or earlier record holds its recovery handle under another key; accepted, the rows are exactly the unsettled records under consecutive ids and each answer has its reason, id, epoch and applied policy; refused, nothing is written and the first failing record has the reason of the first clause it fails |
| GroupAnswers.LockedSubmissionIsAnswered | store/memory.go:509-559 | the same under the lock of every reachable run, however stale the probe: what commits and what is refused, and each answer |
| GroupAnswers.ReusedSlotIsRefused | store/memory.go:479-486 | a batch with a slot taken by other content is refused for the first such record with STREAM_INDEX_REUSED, settled records keep their ids and a superseded commit is told its epoch's winner |
| GroupAnswers.SettledIsAnswered | store/memory.go:487-500 | a batch the log holds whole is answered with its ids and the current epoch and writes nothing |
| GroupAnswers.UnavailableIsRefused | store/memory.go:501-531 | a closed group and one that does not exist answer alike but for settled records and the first reused slot, with no epoch and no winner |
| LateCommits.LateCommitHasLost | store/memory.go:600-611 | in every run, a commit probed absent in front of the lock that holds it once its epoch is won, whoever has claimed its index since, holds the lock until it is answered COMMIT_LOST with the epoch's winner, the last record of the epoch, and never EPOCH_STALE |
| LateCommits.ProbedLateCommit | store/memory.go:474-531 | the same from in front of the lock: COMMIT_LOST with the winner, unless the group closes first, and then the merged refusal |
| GroupTheorems.LateCommitAlone | store/memory.go:853-879 | with nothing else in flight the whole answer, its winner and the epoch filled in |
| GroupTheorems.CommitsAreTheEpochBoundaries | store/memory.go:739-750 | a record is a commit if and only if it is the last record of a superseded epoch, and there is one to each |
| GroupTheorems.OrdinaryRecordsFollowTheirMarker | store/memory.go:612-615 | every stored record at epoch 1 or later that is neither wrap nor marker comes after a stored marker with exactly the wrap count announced by the commit that opened its epoch |
| GroupTheorems.MarkerOpensNothingInItsBatch | store/memory.go:753-762 | while an epoch is not complete, a batch that passes the gates holds only wraps and markers, whatever markers it carries itself |
| GroupTheorems.InstalledKeys | store/memory.go:710-747 | the keys a won commit installs are the request's exactly when its attachment is the digest kind, else the attachment's |
| EpochCustody.KeysServed | store/memory.go:187-226 | what is served of an epoch is what it was opened with, given rows kept as opened |
| EpochCustody.KeysServedAsInstalled | store/memory.go:187-226 | in every run from a founding commit an open group serves for exactly the epochs up to its own the write key the opening commit installed, inside its attachment or beside it by kind, until two epochs later, and the read key for good, each under its name, with the commit's id and instant, and the next commit's instant as the retirement; epoch 0 has the bootstrap key alone and no other epoch has any |
| EpochCustody.RowsRetainedAsPromised | store/memory.go:764-779 | in every run every row's prune time is its class's from its own instant under the policy its epoch's opening commit asked for as the limits have it, and a commit's own row under the one it brings |
| GroupRuns.StepKeepsInv | store/memory.go:443-559 | each step of any call, close or reader keeps the system invariant |
| GroupRuns.RunKeepsInv | store/memory.go:443-559 | every finite run keeps it, and the group only ever grows by appending |
| GroupRuns.GatedCommitHasNotLost | store/memory.go:679-692 | under the lock, the compare-and-swap in front of the writes never fires |
| GroupRuns.FetchKeepsReader | store/memory.go:228-285 | following the cursor under any limits and ceilings keeps what a reader received the log up to its cursor, each record its row's in every column, bodies included unless it asked for heads alone |
| GroupLog.StoreKeepsShape | store/memory.go:704-808 | storing one admitted record keeps ids gapless, epochs ordered, claims and records in bijection, senders' high waters and accounts, commits and keys, every pin the first that came, and the epoch complete exactly when its marker stands |
| GroupLog.SameRowsSameShape | store/memory.go:694-702 | allocating ids alone disturbs none of it |
| GroupBatch.GateUnderOverlay | store/memory.go:533-556 | gating a later record against the batch's own high waters and pins answers as gating it against the group with the earlier records already stored |
| GroupBatch.StoreFromKeepsShape | store/memory.go:694-808 | storing a gated batch record by record keeps the log's shape, two claims of one batch included |
| GroupBatch.CommitBatchKeepsInv | store/memory.go:674-818 | a gated batch committed under one allocation keeps the whole log invariant, with next_record_id one past the last row |
| GroupBatch.CommitBatchExtends | store/memory.go:674-818 | it only appends: no row, claim, commit or pin is overwritten, and each unsettled record is claimed under the id it was answered |
| GroupFetch.CeilingCutsAPrefix | store/memory.go:254-264 | a read ceiling shows exactly the rows up to its high water |
| GroupFetch.PageIsTheNextRows | store/memory.go:265-285 | with every class asked for, a page is the next rows of the log after the cursor, each served column by column, the cursor moves exactly past them, and a complete page ends at its own high water |
| GroupFetch.PageIsExactly | store/memory.go:228-285 | of any rows, mask, limit and ceiling, a page is exactly the admitted rows past the cursor in log order up to the limit, each the row's record in every column with the row's prune time and its body unless heads alone were asked for; it is complete exactly when none is left over, the cursor is at the last and the high water is the greatest id under the ceiling |
| ClassMasks.MaskAdmitsItsClasses | store/memory.go:287-294 | under the mask of the classes a client wants exactly those are admitted, and under an empty one every class |
| GroupFetch.WalkStep | store/memory.go:228-285 | one unlimited fetch at an epoch serves everything up to the commit that closes it and so names the next epoch |
| GroupFetch.CatchUp | store/contract.go:2032-2092 | a reader starting at epoch 0 and following each served commit receives the whole log, every row in every column and with its body, in exactly current_epoch + 1 fetches |
| MemoryGroup.Rows.constructor | store/memory.go:361-428 | the founding rows are the founded group and satisfy the log invariant |
| MemoryGroup.Rows.Probe | store/memory.go:568-588 | the probe loop answers for each record whether its claim is absent, identical or differs |
| MemoryGroup.Rows.GateAll | store/memory.go:533-557 | the gate loop names the first refused record and its reason, or passes all, exactly as the specification |
| MemoryGroup.Rows.GateOne | store/memory.go:595-669 | one record's gates in the source's order; what they come to is stated of the log by `SubmissionIsAnswered` |
| MemoryGroup.Rows.DropWriteKeys | store/memory.go:732-738 | the loop drops exactly the write keys older than the superseded epoch, in whatever order the map yields |
| MemoryGroup.Rows.TurnEpoch | store/memory.go:719-738 | the new epoch's row, its predecessor stamped, older write keys gone |
| MemoryGroup.Rows.TurnPolicy | store/memory.go:739-744 | the group's own row moves to the next epoch, incomplete, under the applied policy |
| MemoryGroup.Rows.OpenNext | store/memory.go:711-750 | the whole new state a won commit leaves |
| MemoryGroup.Rows.Mark | store/memory.go:757-762 | only a marker naming the current epoch with the announced count completes it |
| MemoryGroup.Rows.Append | store/memory.go:764-801 | claim, row, pin and sender row of one stored record |
| MemoryGroup.Rows.StoreOne | store/memory.go:704-801 | one accepted record, commit or not, makes the specified state |
| MemoryGroup.Rows.WriteRows | store/memory.go:694-818 | exactly as many ids as unsettled records, then the rows and answers under them |
| MemoryGroup.Rows.Commit | store/memory.go:674-818 | with a lost compare-and-swap nothing is written and the loser is told; otherwise the batch is written whole |
| MemoryGroup.Rows.Refuse | store/memory.go:832-845 | the offender's reason, the non-specific one on its neighbours, settled records kept |
| MemoryGroup.Rows.Fill | store/memory.go:853-879 | current epoch on each answer and the winner on each refused commit, nothing for a closed group |
| MemoryGroup.Rows.Settle | store/memory.go:487-500 | a batch the probe settled whole is answered by it |
| MemoryGroup.Rows.UnderLock | store/memory.go:509-559 | the steps under the lock keep the invariant and make exactly the specified transaction |
| MemoryGroup.Rows.Answer | store/memory.go:474-559 | the probe, then the lock, make exactly the specified submission |
| MemoryGroup.Rows.Submit | store/memory.go:443-559 | shape errors first and without effect, else the specified submission, answered as `GroupAnswers` states; the invariant is kept and the group only extended |
| MemoryGroup.Rows.CloseGroup | store/memory.go:296-317 | a group closes once and loses nothing |
| MemoryGroup.Rows.FetchPage | store/memory.go:228-285 | the two loops give the specified page: exactly the admitted rows up to the limit, each column by column, and the high water of the ceiling; a closed group gives none |
| MemoryGroup.Rows.SelectRows | store/memory.go:265-284 | the page loop stops at the limit exactly when another wanted row is still to come |
| MemoryGroup.Rows.EpochKeysAt | store/memory.go:187-226 | unknown, emptied and closed answer alike, and any other epoch with every field of its row, which `KeysServedAsInstalled` ties to its opening |
| MemoryGroup.Store.CreateGroup | store/memory.go:321-439 | a group is created if and only if the request is well shaped, its commit is there and founds epoch 1 and the id is free, with the applied policy answered the one stored, and no other group is touched |
| MemoryGroup.Store.Submit | store/memory.go:443-507 | a submission changes its own group only, one to an unknown group is refused whole, and a malformed one changes nothing |
| LinkBoxRuns.StepKeepsInv | store/memory.go:1253-1448 | every arm keeps deposits ordered, counted and tied to their box's expiry |
| LinkBoxRuns.SweepKeepsInv | store/memory.go:1465-1518 | so does a sweep of any choice of rows |
| LinkBoxRuns.StepUnseen | store/memory.go:1253-1448 | an arm answers alike on a store and on the same store swept, unless it registers at a reclaimed id |
| LinkBoxRuns.RegisterSeesReclaim | store/memory.go:1275-1281 | at a reclaimed id a Register is refused without the sweep and never answers the same with it |
| LinkBoxRuns.SweepSparesTheLiving | store/memory.go:1465-1518 | a sweep leaves a box within its life untouched, row and deposits |
| LinkBoxRuns.SweepIsUnobservable | sweep/sweep.go:18-21 | with a non-decreasing clock, a run with sweeps and a run without answer alike at every arm up to the first Register at a reclaimed id, where they differ |
| LinkBoxRuns.SweepingChangesNoAnswer | store/memory.go:1455-1519 | inserting bounded sweep batches anywhere in a run, from any sound store, changes no answer up to the first Register at a reclaimed id |
| LinkBoxDivergence.RegisterAt | store/memory.go:1275-1291 | at an id the two runs agree at, a Register answers differently if and only if the sweep reclaimed the id or the cap on live boxes falls between the two |
| LinkBoxDivergence.SweepSeenOnlyAtRegisters | sweep/sweep.go:18-21 | the same followed past that point: at every id no such Register has named, every Deposit, Collect, Retire and Open answers alike |
| LinkBoxDivergence.SweepingPartsOnlyRegisters | store/memory.go:1253-1519 | over every whole run with a non-decreasing clock, however many Registers have come to differ, and until the first the live count is the same |
| LinkBoxLedger.ArmBalances | store/memory.go:1325-1432 | one arm's answer, booked, keeps every box's books balanced |
| LinkBoxLedger.SweepBalances | store/memory.go:1465-1496 | so does a sweep, for exactly the deposits it prunes from each box |
| LinkBoxLedger.EveryLifeAddsUp | store/memory.go:1253-1432 | over every run, accepted deposits are next_deposit_id - 1, at most two, and equal those standing, acknowledged, discarded and swept; refusals given equal those reported plus the count held |
| LinkBoxHistory.EveryAnswerFollows | store/memory.go:1253-1448 | in every run with sweeps anywhere, the whole answer of every arm follows from what was answered and swept before: a Register by the same registration finds its live box and any other is refused, an Open gives the registered keys each under its name, a Deposit is a replay of one waiting, refused past two, or the next id, a Collect hands over exactly the deposits taken and not acknowledged, discarded or swept past both its marks, in id order as handed in, cut to its limit and complete exactly when nothing was cut, a Retire discards what waits |
| LinkBoxHistory.DepositsComeBack | store/store.go:1105-1119 | so a Collect from the start returns every deposit taken and not gone, with the ciphertext it was deposited with |
| LinkBoxHistory.RunTells | store/memory.go:1253-1519 | the rows of every run are that past, box by box and deposit by deposit |
| LinkBoxHistory.ShapedExactly | store/store.go:1045-1089 | an arm passes its shape checks if and only if its keys, card and deposit have their lengths and a Register a time to live and a cap |
| LinkBoxHistory.CutToTheMicrosecond | store/store.go:1036-1042 | an instant is cut to the whole microsecond below it |
| LinkBoxLedger.WriteActsOnTheVerifiedBox | store/memory.go:1253-1259 | in any state at all, a write acts exactly when the box at the id is live and pinned under the key the caller verified, and touches no other box |
| LinkBoxLives.RunKeepsLife | store/memory.go:1264-1519 | a row found after any run under the life it began with is the same box, never absent between, with its keys, times and card |
| LinkBoxLives.WriteAfterRead | api/rendezvous_push.go:96-106 | a write verified against the box that was read, after any arms and sweeps: on that life it acts exactly while the box is live, on a later one exactly when that is live and pinned under the same key, else it changes nothing |
| LinkBoxLives.UnsweptIsRefused | store/memory.go:1275-1281 | the second Register of an id, refused while the expired row stands and answered with a new box once it is swept |
| LinkBoxLives.ActedOnInALaterLife | api/rendezvous_push.go:103-106 | the run, for every registration, in which a Collect verified in one life is acted on in the next |
| LinkBoxLedger.StepKeepsLives | store/memory.go:1325-1432 | no arm changes the keys, times or card of a standing row |
| LinkBoxLedger.SweepKeepsLives | store/memory.go:1481-1496 | no sweep does either |
| LinkBoxStore.Rows.CountLive | store/memory.go:1434-1448 | the loop counts the live boxes |
| LinkBoxStore.Rows.Register | store/memory.go:1264-1307 | makes the specified state and answer, the cap counted over live boxes |
| LinkBoxStore.Rows.Deposit | store/memory.go:1325-1365 | makes the specified state and answer |
| LinkBoxStore.Rows.Take | store/memory.go:1341-1364 | a replay changes nothing, a full box counts a refusal, else the deposit is appended under the next id |
| LinkBoxStore.Rows.Collect | store/memory.go:1367-1409 | makes the specified state and answer: deletes through the acknowledgement, hands over what is left past the cursor, reports and zeroes the refusals |
| LinkBoxStore.Rows.Retire | store/memory.go:1411-1432 | discards what stands and leaves the tombstone |
| LinkBoxStore.Rows.Serve | store/memory.go:1264-1448 | any arm, its shape checked first, makes the specified state and answer and keeps the invariant |
| LinkBoxStore.Rows.Look | api/rendezvous.go:130-142 | a box past its expiry answers as an unknown one |
| LinkBoxStore.Rows.GatherDeposits | store/memory.go:1465-1473 | the nested loops gather exactly the due deposits, each once |
| LinkBoxStore.Rows.GatherBoxes | store/memory.go:1498-1504 | the loop gathers exactly the due boxes, each once |
| LinkBoxStore.OldestFirst | store/memory.go:1474-1480 | the oldest, at most the bound, in the total order the source sorts by |
| LinkBoxStore.Rows.Prune | store/memory.go:1481-1496 | removes exactly the chosen deposits and recounts the boxes touched |
| LinkBoxStore.Rows.Reclaim | store/memory.go:1511-1517 | removes exactly the chosen boxes with what they hold |
| LinkBoxStore.Rows.Sweep | store/memory.go:1455-1519 | chooses the oldest due rows within both bounds, removes those and nothing else, and counts them |
| SweepJob.ShortBatchDrains | sweep/sweep.go:209-214 | a batch that reaches neither bound leaves nothing due at its own instant |
| SweepJob.OldestGoFirst | store/memory.go:1474-1510 | no due row a batch leaves for a later one fell due before one it took |
| SweepJob.TiesAreOrdered | store/memory.go:1474-1510 | of rows due at one instant a batch takes the lesser id first, and of one box the lesser deposit |
| SweepJob.RowsRemoved | store/memory.go:1511-1517 | a batch removes exactly as many box rows as it reports |
| SweepJob.Job.constructor | sweep/sweep.go:87-140 | every bound that names nothing takes its default: 1000 deposits, 500 boxes, 50 batches, 20 seconds |
| SweepJob.Job.Pass | sweep/sweep.go:178-221 | with any arms served between its batches: at most the bound of batches, reported boxes and deposits equal to what its own batches removed, and when a short batch ended it nothing due at that batch's instant |
| SweepJob.Job.ServeGap | sweep/sweep.go:182-187 | the arms of one gap are served in order and are no part of what the pass reports |
| Fragments.PartSize | peer/frame.go:83-88 | a budget in range is the part size and any other takes the largest |
| Fragments.Cut | peer/frame.go:490-518 | the cutting loop gives the specified frames for every body and part size, which `FramesAreThePieces` says are all its pieces |
| Fragments.ResponseFrames | peer/frame.go:484-523 | the server sends a body that fits whole, and else exactly its pieces at the budgeted part size, in order |
| Fragments.RequestFrames | harness/client.go:373-408 | the client sends a body that fits, or that is not to be cut, whole, and else exactly its pieces in order |
| Fragments.PiecesSpellTheBody | peer/frame.go:484-523 | all the parts of a body end to end are the body |
| Fragments.FramesAreThePieces | peer/frame.go:490-518 | a body that fits goes out as one frame that is the body, and one that does not as exactly its pieces, all of them in order |
| Fragments.FramesSpellTheBody | harness/client.go:373-408 | both cutters, for every body and size: one whole frame exactly when it is not to be cut, and else fragments that spell it |
| Fragments.CountFitsExactly | peer/frame.go:497-504 | the part count fits 32 bits if and only if the body is at most 2^32 - 1 parts long |
| Fragments.WrappedCountIsShort | peer/frame.go:497-506 | a count that does not fit 32 bits names too few parts to hold the body |
| Reassembly.AcceptKeepsInv | peer/frame.go:310-351 | every fragment, whatever it holds, keeps both caps, the byte bound and parts 0..next-1 in order |
| Reassembly.JoinsInSequence | peer/frame.go:310-351 | pieces in sequence are answered "more" until the last and the last with their bytes, however other keys interleave |
| Reassembly.CompletedIsWhatCame | peer/frame.go:310-351 | whatever arrives in whatever order, a completed body is what the last fragments that came under its key spell, 0, 1, ... of one count, as many as the count says, within the byte bound |
| Reassembly.RefusedExactly | peer/frame.go:156-229 | a fragment is refused as malformed if and only if it is not the next of its key or there is no room to open one, as oversize if and only if it would pass the byte bound, and either frees its buffer and no other |
| Reassembly.ExpiresExactly | peer/frame.go:372-396 | an arrival leaves of the other keys exactly those within the bound, unchanged |
| Reassembly.ServerJoinsWhatWasCut | peer/frame.go:310-351 | of the frames the client's cutter sends: one whole body, or fragments the server answers "more" until the last and the last with the client's body, given room, no expiry and a count of 32 bits |
| Reassembly.WrappedCountNeverJoins | peer/frame.go:310-351 | a cut whose count does not fit is never joined back into its body |
| Reassembler.Joiner.constructor | peer/frame.go:276-288 | a new joiner holds nothing and is valid |
| Reassembler.Joiner.Drop | peer/frame.go:415-430 | buffer, list place and client slot of one request go together, so the three indexes still agree |
| Reassembler.Joiner.ExpireFront | peer/frame.go:372-396 | expiring from the front of the list drops exactly what a scan of everything would, looking at one entry more at most |
| Reassembler.Joiner.Refusal | peer/frame.go:156-229 | the aborts in the source's order |
| Reassembler.Joiner.Append | peer/frame.go:337-344 | a part appended, its buffer opened first if need be, with every index kept |
| Reassembler.Joiner.ApplyFragment | peer/frame.go:313-350 | abort, more or complete, and the state each leaves |
| Reassembler.Joiner.AcceptFragment | peer/frame.go:310-351 | one arrival does to map, list, counters and buffers what the reference journal says, and keeps caps and bounds |
| Reassembler.Joiner.Sweep | peer/frame.go:401-405 | with no fragment at all, exactly what is past the bound goes and is counted |
| ClientJoiner.Client.AcceptFragment | harness/client.go:234-260 | the client's joiner follows its own reference journal and frees the buffer on every abort |
| ClientJoiner.CompletedIsWhatCame | harness/client.go:234-260 | whatever arrives, a completed body is what the last fragments of its response spell, in sequence and all of them |
| ClientJoiner.AbortedExactly | harness/client.go:234-260 | a fragment aborts its response if and only if it is not the next of it, of its count, and frees its buffer and no other |
| ClientJoiner.ClientJoinsWhatWasCut | harness/client.go:234-260 | of the frames the server's cutter sends: one whole body, or fragments the client completes with the server's body exactly at the last, given a count of 32 bits |
| ClientJoiner.WrappedCountNeverJoins | harness/client.go:234-260 | a response whose count does not fit is never joined back into its body |
| Subscriptions.Raised | api/subscribe.go:198-202 | what is owed becomes the highest of itself and the records at or below the ceiling, and nothing else of the subscription moves |
| Subscriptions.SubscribeKeepsInv | api/subscribe.go:126-156 | subscribing, replacing or being refused keeps both indexes equal and every connection within its bound |
| Subscriptions.SubscribeExactly | api/subscribe.go:126-156 | a replacing subscribe leaves the connection its one new subscription, or none when refused; one that does not replace leaves its others as they stand; it is refused exactly when the key is new and the connection holds its bound; accepted, it stands under a new object at its snapshot, and no other connection changes |
| Subscriptions.UnsubscribeExactly | api/subscribe.go:160-179 | the connection's named subscriptions, or all of them, end and no other does |
| SubscriptionRuns.StepKeepsInv | api/subscribe.go:126-281 | every step of subscribers, publishers and the loop keeps the invariant, sends off the lock included |
| SubscriptionRuns.RunKeepsInv | api/subscribe.go:217-281 | so does every run |
| SubscriptionRuns.IndexesAgreeInEveryRun | api/subscribe.go:126-179 | in every run the two indexes hold the same subscriptions and no connection passes its bound |
| SubscriptionRuns.NoPushIsLost | api/subscribe.go:186-281 | in every run a standing subscription is owed exactly the highest of its snapshot and the records published to it since, and one told less is marked ready or on the wire with the loop running or about to be woken |
| SubscriptionRuns.PushesOnlyRise | api/subscribe.go:242-254 | what one subscription is told never decreases, and is its snapshot or a record of its group at or below its ceiling |
| SubscriptionMarks.StepKeepsMarks | api/subscribe.go:188-281 | every step keeps the history of each ready mark exact: it was set for this object and not while all it was owed was on the wire, if and only if the object will know less than it is owed |
| SubscriptionMarks.NewExactlyWhenMarkedFor | api/subscribe.go:198-244 | in every run, a taken subscription's push is above its snapshot and all it was told if and only if it had been told less than it is owed, and that fails exactly when its mark was set for an earlier object under the key or while its own push carried everything |
| StalePushes.PushedTwiceWhenOvertaken | api/subscribe.go:203-206 | the run in which a record above the ceiling, published while the one owed push is on the wire, has that push sent twice |
| StalePushes.PushedItsSnapshotWhenMadeAgain | api/subscribe.go:230-236 | the run in which a subscription made again under its mark is pushed the snapshot it was acknowledged with |
| SubscriptionRuns.QuietMeansTold | api/subscribe.go:217-281 | once the loop sleeps with no wake-up on its way, every subscriber's last push covers every record it was to hear of |
| Announcements.PublishAccepted | api/subscribe.go:417-433 | the loop announces exactly the accepted results that name a record, each at the submitted record's epoch |
| Announcements.AnnouncedTrueExactly | api/subscribe.go:415-432 | of every answer a submission can get, what it announces of a record is true of the log if and only if the record was not stored before or the submission names its row's epoch |
| Announcements.NothingAnnouncedOfNoGroup | api/subscribe.go:415-432 | nothing is announced of any submission to a group that does not exist |
| Announcements.RetryUnderAnotherEpoch | store/memory.go:568-588 | any stored record sent again under any epoch is accepted under its id, writes nothing and is announced at that epoch |
| Announcements.RetryRaisesPastTheCeiling | api/subscribe.go:198-202 | a retry naming an epoch within a ceiling, of a row above it, raises what is owed past what a fetch answers |
| Announcements.HighWaterGrows | store/memory.go:254-264 | a log that only grows never lowers a reader's high water |
| StoreAndPush.NewRowsAreWritten | store/memory.go:704-808 | every row a step adds is one the committing call's own answer announces, at the row's epoch |
| StoreAndPush.StepKeepsInv | api/submit.go:149-154 | every step of the store, the registry, an announcement, a snapshot's read or a registration keeps the log of announcements matched to the answered calls and every snapshot true |
| StoreAndPush.RunKeepsInv | api/subscribe.go:363-377 | so does every run |
| PushAndFetch.UnheardExactly | api/subscribe.go:363-377 | in every reachable pair, the readable rows a subscription has not been told of are exactly those stored after its snapshot was read whose every telling call is unpublished or was published before it was registered, and each has such a call |
| PushAndFetch.UnheardUntilPublished | api/subscribe.go:363-377 | in every run from there, such a row stays untold if and only if no call that tells of it has been published in the meantime |
| PushAndFetch.OwedIsTheFetchHighWater | api/subscribe.go:15-29 | in every reachable pair, what a standing subscription is owed is the high water a fetch at its ceiling answers if and only if the last row it may read is not one of those and nothing told it of a row above its ceiling |
| PushAndFetch.AboveExactly | api/subscribe.go:25-29 | it is told of a row above its ceiling if and only if a call published since it was made names such a row at an epoch within the ceiling |
| PushAndFetch.OnlyRetriesPassTheCeiling | api/subscribe.go:25-29 | and that call, published since the subscription was made, did not write the row and names an epoch below the row's |
| PushAndFetch.PushedIsFetchedExactly | api/subscribe.go:217-281 | in every run from a founding commit, once the loop is quiet what a subscriber last learned is its fetch's high water under that same condition |
| MissedPush.MissedBetweenReadAndRegistration | api/subscribe.go:363-377 | the run, for every founding commit and first wrap, in which a record stored and announced between the read of a snapshot and the registration has not been told once the loop sleeps, and the subscriber falls short of its fetch |
| MissedPush.MissedUntilPublishedAgain | api/subscribe.go:363-377 | in every run from there the record stays untold exactly until another call that tells of it is published |
| MissedPush.SuchACommitAndWrap | store/memory.go:1030-1120 | a founding commit and a wrap that meet that run's conditions |
| SubscriptionRegistry.Registrar.constructor | api/subscribe.go:96-111 | a new registry holds nothing and takes the default bound |
| SubscriptionRegistry.Registrar.DropConnection | api/subscribe.go:131-136 | the loop ends exactly one connection's subscriptions |
| SubscriptionRegistry.Registrar.Subscribe | api/subscribe.go:126-156 | makes the specified registry, replacing first when asked, refusing at the bound and evicting nothing, as `SubscribeExactly` states |
| SubscriptionRegistry.Registrar.Unsubscribe | api/subscribe.go:160-179 | the named groups, or all, with unknown ones ignored |
| SubscriptionRegistry.Registrar.Raise | api/subscribe.go:198-202 | the record loop gives the specified high water |
| SubscriptionRegistry.Registrar.Published | api/subscribe.go:188-215 | the loop over all subscriptions raises and marks exactly the group's own, and signals if and only if one is owed more |
| SubscriptionRegistry.Registrar.TakeReady | api/subscribe.go:226-244 | takes one ready subscription that stands, or finds that none does and leaves no mark |
| SubscriptionRegistry.Registrar.Settle | api/subscribe.go:256-278 | settles a send against the very object it was taken for, marking it again if more came, dropping it if refused, and counts it as pushed or as dropped |
| RendezvousPush.SubscribeKeepsInv | api/rendezvous_push.go:107-144 | a subscribe keeps no box empty, no object under two keys, no connection past its bound, no push owed to nobody and an entry at each box's own expiry |
| RendezvousPush.SubscribeExactly | api/rendezvous_push.go:107-144 | the connection's own live subscription is claimed again, one it lacks is made with one claim unless it holds its bound, and a call verified against an earlier box gets neither; what outlives the call stands under the object it had |
| RendezvousPush.SettleKeepsInv | api/rendezvous_push.go:157-173 | so does a settle |
| RendezvousPush.DepositedKeepsInv | api/rendezvous_push.go:230-249 | so does a deposit |
| RendezvousRuns.StepKeepsInv | api/rendezvous.go:401-427 | every step of Collects, of tellings of deposits and retires and of the loop keeps claims exact, marks exact and the loop awake |
| RendezvousTheorems.RunKeepsInv | api/rendezvous_push.go:107-311 | so does every run |
| RendezvousTheorems.ClaimsAreTheUnsettled | api/rendezvous_push.go:45-58 | in every run a standing subscription's claims are the number of unsettled Collects holding that very object, it is kept exactly when a write took, and one of the two holds it up |
| RendezvousTheorems.IndexesAgreeInEveryRun | api/rendezvous_push.go:68-89 | in every run no box is empty, no connection passes its bound, each owed push names a standing subscription and each box is scheduled at its own expiry |
| RendezvousTheorems.NoTellingGoesUnsent | api/rendezvous_push.go:230-311 | in every run a standing subscription is marked exactly while it has been told of a deposit at its id since it was last taken, and while one is marked the loop is on it or about to be woken |
| RendezvousTheorems.OnlyTheseEndIt | api/rendezvous_push.go:107-227 | a step ends a standing subscription if and only if it is the expiry of the box it was made for, the telling of a retire at its id, a later expiry subscribed to under its id, a refused push to it, or the last unsettled Collect failing on one that none kept |
| RendezvousTheorems.KeptSurvivesFailures | api/rendezvous_push.go:147-173 | once a write took, a subscription outlives every other Collect's failed write through any run that does not end it from outside |
| RendezvousTheorems.NothingExpiredStays | api/rendezvous_push.go:219-227 | after any deposit or live subscribe at `now`, no box that had expired by then remains |
| BoxesAndPush.StepKeepsInv | api/rendezvous.go:336-348 | every step of the boxes, of a Collect's read, claim, write and settle, of a deposit's or a retire's write or its telling, and of the loop keeps each call's box and books sound, every deposit stored since a subscription was made told or still to tell, and its mark and count those of its last telling |
| BoxesAndPush.RunKeepsInv | api/rendezvous.go:401-427 | so does every run, with sweeps and new registrations anywhere in it |
| DepositPushes.EveryDepositIsTold | api/rendezvous_push.go:12-14 | in every run, of every deposit stored at its id since a standing subscription was made, replays aside, it has been told once or the call that stored it is still to tell; it is told of nothing else, is marked exactly while told of one since last taken, and its push carries the count of the last one told |
| DepositPushes.CountIsRightExactly | api/rendezvous.go:336-348 | in every reachable pair, while the box a deposit was stored in stands, the count its telling carries is the count waiting there if and only if since then nothing was stored and nothing left, or one was stored and one left |
| DepositPushes.MarkedCountIsRightExactly | api/rendezvous_push.go:45-46 | the count a marked subscription's push carries is the box's own under that same condition on the last deposit told |
| DepositPushes.TellingIsOfTheStandingBox | api/rendezvous.go:345-348 | a deposit or retire told at an id is of the life standing there if and only if no box was registered there since its write, and then the row there is that very box |
| DepositPushes.RetireEndsItsOwnExactly | api/rendezvous.go:490-500 | the telling of a retire ends each subscription standing at its id, and it is the retire of the life the subscription's Collect read if and only if no box was registered there between the two |
| DepositPushes.ToldOfItsOwnExactly | api/rendezvous_push.go:230-241 | a deposit a subscription was told of is of the life its Collect read under that same condition |
| LateTellings.ToldOutOfOrder | api/rendezvous.go:336-348 | the run, for every registration and two deposits, in which both are told in the other order: the box holds two and the push owed carries one, and before the first telling no push is owed at all |
| LateTellings.RightOfAnotherDeposit | api/rendezvous.go:336-348 | the run in which the count owed is the count waiting though one deposit left and another came untold |
| LateTellings.RetireToldInALaterLife | api/rendezvous.go:490-500 | the run in which a retire told after a sweep and a new Register drops a kept subscription to the live, unretired box of the next life |
| ExpiryHeap.RootIsLeast | api/rendezvous_push.go:68-81 | the root of a heap is no later than any entry |
| ExpiryHeap.SiftUp | api/rendezvous_push.go:76-89 | sifting up restores the heap and keeps its entries |
| ExpiryHeap.SiftDown | api/rendezvous_push.go:76-89 | sifting down restores the heap and keeps its entries |
| ExpiryHeap.Push | api/rendezvous_push.go:132 | the entry goes in, nothing else changes, and it is still a heap |
| ExpiryHeap.Pop | api/rendezvous_push.go:221 | the earliest entry comes out, nothing else does, and it is still a heap |
| RendezvousRegistry.Registrar.constructor | api/subscribe.go:96-111 | a new registry holds nothing, counts nothing and takes the default bound |
| RendezvousRegistry.Registrar.Release | api/rendezvous_push.go:208-215 | one fewer in the whole and for the connection, whose entry goes with its last |
| RendezvousRegistry.Registrar.Remove | api/rendezvous_push.go:176-190 | one subscription ends, its box with its last, and all counts stay the real ones |
| RendezvousRegistry.Registrar.DropBox | api/rendezvous_push.go:193-204 | every subscription of one box ends, the counts stay the real ones and only those ended are visited |
| RendezvousRegistry.Registrar.Prune | api/rendezvous_push.go:219-227 | popping due entries off the heap ends exactly the boxes past their expiry, whatever stale entries come up, and visits only what it ends |
| RendezvousRegistry.Registrar.Subscribe | api/rendezvous_push.go:107-144 | makes the specified registry and outcome |
| RendezvousRegistry.Registrar.Join | api/rendezvous_push.go:121-143 | claims the connection's own subscription again, refuses at the bound, or makes one with one claim, on the counts as kept |
| RendezvousRegistry.Registrar.Settle | api/rendezvous_push.go:157-173 | makes the specified registry |
| RendezvousRegistry.Registrar.Deposited | api/rendezvous_push.go:230-249 | prunes, marks the box's own subscribers and no others, signals if and only if there is one, and visits what it ended and what it marked |
| RendezvousRegistry.Registrar.Mark | api/rendezvous_push.go:234-241 | the loop gives every subscriber of the box the new count and its mark |
| RendezvousRegistry.Registrar.Retired | api/rendezvous_push.go:253-257 | a retired box's subscriptions all end |
| RendezvousRegistry.Registrar.TakeReady | api/rendezvous_push.go:270-289 | takes one marked subscription that stands, or finds that none does and leaves no mark |
| RendezvousRegistry.Registrar.AfterPush | api/rendezvous_push.go:301-309 | a refused push ends the very subscription it was taken for and no other, and each settled push is counted as pushed or as dropped |
| Retention.PolicyIsWithinLimits | store/store.go:1128-1192 | no stored policy passes an advertised maximum or keeps text for no time, and one is below the minimum if and only if the maximum is, or nothing was asked and the default is |
| Retention.ClampedMeansMoved | store/store.go:442-456 | a commit is told it was clamped exactly when its policy was moved, but for one misconfiguration stated exactly |
| Retention.ClampedThoughUnmoved | store/store.go:1173-1183 | the limits and the request at which the notice is given though nothing moved |
| Retention.PolicyIsTheNearest | store/store.go:1128-1192 | the stored policy is the allowed one nearest to what was asked, an indefinite one goes to the maximum or stays, and one not asked for is the default cut to the maximum |
| Retention.MarksSayWhy | store/store.go:1128-1192 | each mark of the applied policy is given exactly for its own reason |
| Retention.PrunedByClassAndPolicy | store/memory.go:920-938 | a shaped record's prune time is its class's lifetime: never, the policy's text or media time, or an hour, eight, a day, seven or twenty-eight |
| Retention.LimitsHoldOfEveryRow | store/store.go:1128-1192 | whatever a commit asks, media is never kept past the maximum, nor text less than the minimum where the limits agree |
| EphWindow.CheckWindow | api/submit.go:481-516 | the 64-bit computation decides by the true distance of the two windows for every value a client can send |
| EphWindow.SenderAndServerAgree | harness/seal.go:237-251 | for every windowed bucket a sender within one bucket length is accepted, and an accepted one is less than two away |
| EphWindow.BothBoundsAreTight | api/submit.go:501-513 | neither bound can be improved in any windowed bucket |
| EphWindow.SenderPuts | harness/seal.go:237-251 | a sender puts zero on the transient rung, nothing off the ladder and else the window its clock is in |
| EphWindow.UnwindowedMustBeZero | api/submit.go:482-488 | off the windowed rungs the window passes if and only if it is zero, which is what a sender puts there |
| EpochKeys.Align | api/epochkeys.go:180-228 | the alignment loop names the first fault with its index, and with none answers the one delivery |
| EpochKeys.CheckBatch | api/submit.go:295-356 | a submission passes if and only if its group id and size fit, every record is shaped, commits stand alone, deliveries align and their digest matches; a refusal carries the first misshaped record's own reason and index |
| EpochKeys.PassedOpensWithItsKeys | store/store.go:315-366 | the store's opening of a passed commit fails over the attachment's body only, never over whether keys came, and delivered keys are of full width |
| EpochKeys.NoCommitNoKeys | api/epochkeys.go:188-205 | a passed batch without a commit carries no keys into the store |
| EpochKeys.OnlyTwoLengths | api/epochkeys.go:167-172 | a passed submission's list is empty or the one entry of a single digest commit if and only if no entry of it is null |
| EpochKeys.NullEntriesPass | api/epochkeys.go:180-205 | null entries beside ordinary records pass at a third length |
| EpochKeys.OpenableIsPassed | api/epochkeys.go:205-226 | conversely, what the store would open with full-width keys is never refused by the alignment |

## Left out

- The PostgreSQL store: the in-memory store is the model of the store's contract.
- Cryptography, the record codec and the projection comparison: their verdicts are parameters.
- Sockets, peers, dispatch and send timeouts: input and output only.
- The reject floor's padding and the declared list of unbuilt features: timing and constants.
- The known-group cache, the connection table and Hello: small invariants that would add easy members.
- The handlers' own order of checks around the store's arms, beyond the batch and key alignment: one branch each.
- Overflow of 64-bit record ids, epochs and counters, and of the 32-bit page length: the values are unbounded.
- The two locks of a group are modelled as one row lock under which each step reads and writes at once; the source's read lock only ever narrows that.
- The link box arms hold one mutex for their whole length and are one step each; rendezvous ids are numbers, so their width check is not part of this model.
- The order in which a map is ranged over is arbitrary in the classes, as in the source.
- GroupRuns.StepKeepsInv: closing a group is one step, because the source holds both locks for all of it.
- EpochKeys.CheckBatch: of a record's own shape the attachment's clause is modelled and the verdicts of the parse, the sizes and the projection are parameters.
- SweepJob.Job.Pass: arms are served between batches, each whole under the store's mutex as in the source; a batch that errs or finds another sweeper's lock held is not modelled, since the in-memory store does neither.
- RendezvousRegistry.Registrar.Prune: the visit counter is kept because it states the cost; the operator's totals are modelled only where a push is settled.
- ExpiryHeap.SiftUp: the sifting is the Go library's heap algorithm, whose source is not part of this repository.
