# A verified model of bafomet

bafomet replicates a deterministic service over `n = 3f + 1` nodes, up to `f` of
which may behave arbitrarily. It orders client requests with a three-phase protocol
(PRE-PREPARE, PREPARE, COMMIT) and replaces a leader that makes no progress with the
view change of Mod-SMaRt (STOP, STOP-DATA, SYNC). This project models those protocols,
the decision log they share, the executor behind them and the number generator used
for message nonces, and proves what they guarantee.

## How it is organised

| files | what they hold |
|---|---|
| `Ordering`, `Core`, `Counting`, `Messages`, `Wrappers` | wrapping sequence numbers, out-of-order queues, quorums, counting, messages |
| `DecisionLog`, `Log` | the decision log with its reverse scans, the request pool, checkpoints |
| `Consensus`, `Replica` | the normal phase of one replica, and the main loop that drives it |
| `ReplicaInvariants`, `Votes`, `Requests`, `Certificates`, `Histories`, `Waiting` | what every step and every history of one replica keeps |
| `Agreement`, `Executor`, `StateMachine` | runs of the whole system, and what its executors compute |
| `Soundness`, `DecidedValue`, `ViewChange`, `GivenUp` | the predicates of the view change, and the fate of decided values |
| `Synchronizer`, `Thresholds` | the STOP/SYNC machine, and how little it may go by |
| `Snapshots`, `Prng` | checkpoints against an asynchronous executor, and xoshiro256** |

Code that updates objects in place is modelled by classes (`TboQueue`, `Consensus`,
`DecisionLog`, `Log`, `Executor`, `Synchronizer`, `Server`, `State`). Each method is
proved equal to a function on values, and the theorems about runs are about those
functions. Hash maps and hash sets iterate in an arbitrary order: the model leaves the
order open and the results hold for all of them.

## Hypotheses

- `n = 3f + 1` and `f >= 1` (`Params.Standard`). The constructor accepts any
  `n >= 3f + 1`; `QuorumsMeetExactly` shows that quorums of `2f + 1` share a correct
  node only for `n = 3f + 1`.
- The network hands a replica at most one vote per sender, kind, view and instance
  (`Votes.OneVote`). The code counts votes without looking at senders and leaves this
  to its environment. Nothing is assumed about votes once they are delivered: that a
  vote is counted at most once on its way through the queues is proved.
- A digest is an injective hash, modelled as a constructor of the hashed value.
  Headers carry the digest of their payload where a theorem says so (`GenuineRun`).
- Signature checks are oracles. In the theorems about runs they accept every message of
  the network, of faulty senders too (`Accepts`).
- Instance numbers start at 0 and stay below `2^31 - 1`. A replica also stops (`Step`
  is `None`) where the code panics or returns an error: a proposal longer than the
  batch buffer, a request missing at finalization, a checkpoint due while one is pending.
- A correct replica that contributes to a view change holds what it has to report: no
  checkpoint emptied its log since it wrote, and past instance 0 the log still proves its
  last decision (`CorrectCollect`). `CollectExactly` says in terms of the replica's own
  events exactly when that is so, in every history and whatever instances view changes
  were finished for.
- A faulty collect names no value more than `m` times in its write set (`NamesAtMost`).
  The code counts every mention; `WrittenValueExactly`, `ForeignValueExactly` and
  `RunsKeepExactly` say which `m` are harmless.
- Between its collect and the end of the view change, a correct replica queues consensus
  messages instead of processing them (`Stopped`), as the main loop does.

## Where the code does less than one might expect

- A value that a correct replica wrote in view `v` is kept, for all collects, exactly when
  `Safe` holds (`WrittenValueExactly`): `v` is not 0, and a later view cannot be claimed
  (`v` is the last one, all views are the same, or no collect is bad), or `k` bad collects
  that name a value `m` times each stay within `k * m <= f` and all views within 10000.
  `GivenUp` has runs of four replicas in which a *decided* value is given up: because it
  was decided in view 0, where a quorum write reads as nothing written; because one faulty
  collect lists another value twice, which `certified_value` counts twice; and because
  `>=` on sequence numbers, the windowed order, misjudges a view 10001 away. Over all such
  runs, `Safe` is again the exact condition (`RunsKeepExactly`).
- On more than `2f + 1` collects two values can be bound at once
  (`UniqueExactlyUpToQuorum`).
- The instance of the new view wraps around when the highest proof is for the largest
  number, and one collect can make it so (`CidCoversCorrect`, `CidWraps`).
- A follower checks neither number nor senders of the collects in a SYNC. Copies of one
  collect bind its value (`FollowerTakesCopies`). In a quorum of collects, `k` bad ones that
  name a value `m` times each can bind it exactly when `k * m > f` (`ForeignValueExactly`).
- Draining the buffer of STOPs lets a sender count twice. A view needs STOPs from a
  full quorum only if the replica timed out itself; otherwise `f + 1` senders are
  enough, and can be all there are (`InstallsAskedFor`, `FewestSenders`).
- A leader finishes a view change without checking that it is for its own instance
  (`FollowerChecksInstance`, `LeaderFinishesElsewhere`). Its log may then hold several
  proposals of the running instance, so that its certificate is no longer exact. And the
  view change may clear the last decided instance: its proposal, so that `last_decision`
  panics (`DecisionIsCleared`), or only its votes, so that no proof is found
  (`VotesAreCleared`, also for the certificate). `FaithfulExactly` and `ProofExactly` say
  exactly when.
- A replica that does not hold the bound proposal falls back on what the leader offers
  (`SettlesExactly`).
- `executing()` adds one in `u32`, which differs from `next()` at `i32::MAX`
  (`ExecutingIsNext`).
- `last_decision` panics exactly when the decided proposal has left the log: by a
  checkpoint that finished since it was logged, or by a view change finished for its
  instance before the next proposal (`PanicsExactly`, `ProofIsLost`).
- `install_sequence_number` panics exactly when a vote queue is shorter than the part
  to drain, and a jump past the PRE-PREPARE queue drops all votes ahead
  (`InstallNumberRefines`, `JumpPanics`, `JumpKeepsExactly`, `JumpLosesVotes`).
- The scan for missing requests covers the whole batch buffer. A proposal shorter than
  the buffer waits for digests that earlier proposals, or its zeroed start, left behind it.
  Without a view change the wait can end exactly if all missing digests are ones that
  requests can have (`EndsExactly`, `ProposalStuckExactly`, `ShortProposalWaits`).
- A batch finalized while a checkpoint is pending is lost from the snapshot. Snapshots
  are faithful exactly when that did not happen (`FaithfulExactly`, `BatchIsLost`).
- A replica that recovers while an application state of its own is on the way stops when
  that state arrives before the next checkpoint is begun (`LateStateStops`), and stores it
  as that checkpoint when it arrives later (`StoresPending`, `StaleStateStored`).
- A recovering replica goes on with the number of the donor's last proposal. This is the
  instance its log is executing exactly if the donor was running that instance with its
  proposal logged, or had none logged and the replica was there already
  (`RecoveredNumber`).

## Model

| member | source | states |
|---|---|---|
| Agreement.AgreementHolds | src/bft/consensus/mod.rs:430-624 | in every state of every run with at most `f` faulty replicas, two correct replicas that decided an instance in the same view decided the same digest, whatever view changes happened and whatever instances they were finished for |
| Agreement.QuorumsAgree | src/bft/core/mod.rs:32-36 | two COMMIT quorums for one instance and view name one digest |
| Agreement.RunInv | src/bft/core/server/mod.rs:430-572 | the system invariant holds in every state of every run: correct replicas send one COMMIT per instance and view, and each decision is backed by a quorum of different COMMIT senders |
| Agreement.StepCommits | src/bft/consensus/mod.rs:531-577 | whatever event a correct replica processes, it never sends COMMITs for two digests in one instance and view |
| Agreement.StepDecides | src/bft/consensus/mod.rs:579-622 | a replica decides only with `2f + 1` accepted COMMITs for exactly the decided instance, view and digest |
| StateMachine.ExecutedArePrefixes | src/bft/core/server/mod.rs:506-540 | in a stable view, the operation batches executed by two correct replicas are prefixes of one another |
| StateMachine.StatesAgree | src/bft/executable/mod.rs:181-229 | after the same number of instances two correct replicas have the same application state, for any deterministic service |
| ViewChange.DecidedValueSurvives | src/bft/sync/mod.rs:1049-1202 | in every run, if a correct replica decides a digest, before or after the collects are sent, and a view change out of that view gets collects for the instance from `2f + 1` distinct replicas, each sent at its own time, then `sound` answers that digest or not sound, never another value nor a free choice, provided the view, the mentions in faulty collects and the distance of the views are `Safe`, and correct contributors hold what they report and queue consensus messages from their collect on |
| ViewChange.CollectExactly | src/bft/consensus/log/mod.rs:236-403 | in every history a replica can contribute such a collect if and only if it has not gone beyond the view, no checkpoint finished since the proposal it wrote, and since its last decision no checkpoint finished and no view change for that instance found one of its lists without newer messages |
| ViewChange.CollectAlong | src/bft/core/server/mod.rs:346-348 | the same for each correct replica at each time of a run, in terms of the history of its own events |
| ViewChange.CommitterReports | src/bft/consensus/log/mod.rs:236-316 | a correct replica that sent a COMMIT reports exactly that view and digest as its quorum write, if no checkpoint emptied its log since the proposal, even if view changes for other instances left old messages |
| ViewChange.CorrectProofIsValid | src/bft/sync/mod.rs:1262-1294 | the last proof a correct replica reports passes the check of `highest_proof` and is about the instance before its current one |
| ViewChange.CidCoversCorrect | src/bft/sync/mod.rs:616-620 | the highest proof is at least that of each correct contributor, and the instance computed from it is at least the one a contributor with a proof is executing if and only if the highest proof is not for the largest number |
| ViewChange.CidWraps | src/bft/sync/mod.rs:1273-1293 | with any valid COMMIT there is a collect that makes the computed instance wrap around to the smallest number |
| ViewChange.NoLateCommits | src/bft/core/server/mod.rs:346-348 | a replica that only queues consensus messages from its collect on sends no COMMIT of that view or an earlier one any more |
| ViewChange.AgreementAcrossViews | src/bft/sync/mod.rs:946-1005 | if correct replicas enter a view only by sound view changes out of another view for an instance, being past that instance or at it and holding the bound proposal, then correct replicas that decide that instance, one in each view, execute the same requests |
| ViewChange.SettlesExactly | src/bft/sync/mod.rs:957-966 | a view change settles on the requests of the bound digest if and only if the replica holds that proposal or the leader offers the same |
| ViewChange.SameForgedProposal | src/bft/sync/mod.rs:946-993 | all replicas at the same instance that hold the bound PRE-PREPARE forge a proposal with the same digest, whatever the leader offered |
| DecidedValue.WrittenValueSurvives | src/bft/sync/mod.rs:1092-1202 | a quorum of collects with a correct quorum write of `d` binds `d` or nothing, and leaves no free choice, whenever `Safe` holds of the view, the number of bad collects, their mentions and the distance of the views |
| DecidedValue.WrittenValueExactly | src/bft/sync/mod.rs:1092-1202 | values written in view `v` survive all quorums of collects with up to `k` bad ones that name a value up to `m` times, and views up to `gap` apart, if and only if `v > 0` and: `v` is the last view, `gap` is 0, `k` is 0, or `k * m <= f` and `gap <= 10000` |
| DecidedValue.RepeatsOverturn | src/bft/sync/mod.rs:1187-1201 | bad collects that list another value more than `f` times in all, be it a single collect, make `sound` give up a written value |
| DecidedValue.FarViewOverturns | src/bft/sync/mod.rs:1181-1202 | for every view above 0 but the last, one bad collect that claims a write 10001 views away, and names nothing itself, makes `sound` give up a written value |
| DecidedValue.ViewZeroIsFree | src/bft/sync/mod.rs:1106-1129 | after a quorum write in view 0 `sound` may leave the choice free, without any bad collect |
| GivenUp.RunsKeepExactly | src/bft/sync/mod.rs:1049-1202 | with four replicas and one of them faulty, all runs keep what a correct replica decides in the first view, 0 or 1, if and only if `Safe` holds |
| GivenUp.GivenUpInViewZero | src/bft/sync/mod.rs:1106-1129 | a run decides a value in view 0, and the view change leaves the new leader free |
| GivenUp.GivenUpByRepeats | src/bft/sync/mod.rs:1187-1201 | a run decides a value in view 1, and a faulty collect that lists another one `m >= 2` times makes it bound instead |
| GivenUp.GivenUpFarAway | src/bft/sync/mod.rs:1181-1202 | a run decides a value in view 1, and a faulty collect that claims a view 10001 away, with one mention, makes another value bound |
| Soundness.ComputeSound | src/bft/sync/mod.rs:1049-1090 | the search over timestamps and values answers bound exactly when some pair binds, and otherwise whether enough replicas wrote nothing |
| Soundness.Candidates | src/bft/sync/mod.rs:1050-1079 | the loop collects exactly the timestamps and values that occur in the collects |
| Soundness.BoundIsCandidate | src/bft/sync/mod.rs:1092-1104 | a pair that binds occurs among the collected candidates, so the search misses none |
| Soundness.UniqueExactlyUpToQuorum | src/bft/sync/mod.rs:1142-1179 | all lists of a given length have at most one binding pair if and only if the length is at most the quorum |
| Soundness.TwoBindings | src/bft/sync/mod.rs:1142-1179 | above the quorum, a list of any length exists with two binding pairs |
| Soundness.AnswerIsUnique | src/bft/sync/mod.rs:1081-1089 | up to quorum size the answer does not depend on the order of the hash sets |
| Soundness.AnswerPermutation | src/bft/sync/mod.rs:1049-1202 | permuting the collects does not change the possible answers |
| Soundness.HighestProofIsMax | src/bft/sync/mod.rs:1262-1294 | the proof found is one of the valid proofs offered and no valid proof offered is for a later instance |
| Soundness.CidPermutation | src/bft/sync/mod.rs:694-699 | the instance of the new view does not depend on the order of the collects |
| Soundness.NormalizePermutation | src/bft/sync/mod.rs:1213-1224 | normalizing permuted collects gives permuted results |
| Soundness.FollowersRepeatLeader | src/bft/sync/mod.rs:692-703 | followers given the leader's quorum of collects, in any order, compute the same instance and the same verdict |
| Synchronizers.InstallsAskedFor | src/bft/sync/mod.rs:491-563 | in every run each installed view was asked for by a correct replica: by `2f + 1` different senders if the replica timed out itself, by at least `f + 1` otherwise |
| Synchronizers.SyncCarriesQuorum | src/bft/sync/mod.rs:564-664 | in every run each SYNC broadcast carries exactly `2f + 1` STOP-DATA messages from different senders |
| Synchronizers.RunKeeps | src/bft/sync/mod.rs:467-731 | the invariant of the STOP, STOP-DATA and collect buffers holds in every state of every run, and installed views are consecutive |
| Thresholds.FewestSenders | src/bft/sync/mod.rs:869-903 | for every `f`, a run installs a view on STOPs of exactly `f + 1` senders, all but one of them counted twice after the buffer was drained |
| Thresholds.ForeignValueExactly | src/bft/sync/mod.rs:1181-1202 | a value named by bad collects only is never bound, for all quorums of collects with at most `k` bad ones that name it at most `m` times, if and only if `k * m <= f` |
| Thresholds.FollowerChecksInstance | src/bft/sync/mod.rs:922-945 | a view change that finishes is for the instance in execution, unless the replica is the leader |
| Thresholds.LeaderFinishesElsewhere | src/bft/sync/mod.rs:589-664 | for every size, view and instance in execution a run makes the leader finish a view change for instance 0 |
| Thresholds.FollowerTakesCopies | src/bft/sync/mod.rs:686-727 | a follower finishes with the value of a single collect when the SYNC holds `2f + 1` copies of it |
| Synchronizers.ShortFails | src/bft/sync/mod.rs:625-634 | `sound` fails on fewer collects than a quorum, so clearing the collects without resetting the counter cannot lead to a short SYNC |
| Synchronizers.StopCounted | src/bft/sync/mod.rs:515-560 | counting one STOP keeps the sender accounting, and if it completes the count then the next view is installed on enough senders |
| Synchronizers.ResumeKeeps | src/bft/sync/mod.rs:734-743 | a view change resumed after a state transfer always finishes |
| Synchronizers.Verdict | src/bft/sync/mod.rs:694-703 | the computed instance is that of the highest valid proof and the answer is one `sound` may give for the normalized collects |
| Synchronizers.SignedCollects | src/bft/sync/mod.rs:1226-1240 | the loop keeps exactly the collects whose signature checks out, in order |
| Synchronizers.Synchronizer.constructor | src/bft/sync/mod.rs:327-339 | starts idle with empty buffers |
| Synchronizers.Synchronizer.ListCollects | src/bft/sync/mod.rs:637 | lists every collect once, filed under its own sender |
| Synchronizers.Synchronizer.Queue | src/bft/sync/mod.rs:134-173 | queues a message by kind, STOPs relative to the next view and the others to the current one |
| Synchronizers.Synchronizer.PollQueue | src/bft/sync/mod.rs:432-462 | takes the oldest message of the running phase's queue, entering the stopping phase from idle, or reports that a paused view change can go on |
| Synchronizers.Synchronizer.BeginViewChange | src/bft/sync/mod.rs:805-843 | keeps the STOP count when stopping, restarts it otherwise, and drains the buffer only without a timeout |
| Synchronizers.Synchronizer.CountStop | src/bft/sync/mod.rs:515-562 | counts a STOP and starts, continues or completes the change of view |
| Synchronizers.Synchronizer.ProcessStop | src/bft/sync/mod.rs:491-563 | queues messages for other views, drops second votes, counts the rest |
| Synchronizers.Synchronizer.CountStopData | src/bft/sync/mod.rs:589-664 | stores a collect and, at the quorum, computes the verdict and broadcasts the SYNC or gives up the collects |
| Synchronizers.Synchronizer.ProcessStopData | src/bft/sync/mod.rs:564-664 | only the leader counts STOP-DATA of the current view, one per sender |
| Synchronizers.Synchronizer.AcceptSync | src/bft/sync/mod.rs:686-727 | a follower repeats the leader's computation on the correctly signed collects |
| Synchronizers.Synchronizer.Finalize | src/bft/sync/mod.rs:922-1005 | waits for a state transfer if the replica is behind, and otherwise finishes the view change and advances the queues |
| Synchronizers.Synchronizer.ProcessMessage | src/bft/sync/mod.rs:467-731 | the whole step equals the transition function for an order of the collects and an answer the code could compute |
| Synchronizers.Synchronizer.Resume | src/bft/sync/mod.rs:734-743 | finishes with the saved state and forgets it |
| Certificates.CertificateFaithful | src/bft/consensus/log/mod.rs:255-316 | the certificate never panics, reports no later view and no write of the current view without a COMMIT sent; on a log not emptied since the proposal it starts with that proposal, and reports the write of the COMMIT phase |
| Certificates.CertificateExactly | src/bft/consensus/log/mod.rs:255-316 | the certificate is one proposal and a quorum write exactly in the COMMIT phase, if and only if no instance is running or its current proposal is logged, no other one is, and outside the COMMIT phase no quorum of PREPAREs of an earlier view is |
| Certificates.ProofComplete | src/bft/consensus/log/mod.rs:320-403 | the lookup of the last decision panics if and only if its proposal has left the log; otherwise it yields a proof with `2f` PREPAREs and `2f + 1` COMMITs if both lists still hold votes of the instance, and none if one does not |
| Certificates.CertificateAfterChange | src/bft/sync/mod.rs:957-1004 | after a view change the certificate is exact if and only if it was finished for the running instance, or the log held no proposal of that instance and no quorum of PREPAREs |
| Certificates.ProofAfterChange | src/bft/sync/mod.rs:957-993 | the proof of the last decision survives a view change if and only if it was there, and the view change was for another instance or found newer messages behind all three lists |
| Histories.IntactExactly | src/bft/consensus/log/mod.rs:724-745 | in every history the running proposal is in the log if and only if no checkpoint finished since it was logged |
| Histories.LastIntactExactly | src/bft/consensus/log/mod.rs:724-745 | in every history the proposal of the last decision is in the log if and only if no checkpoint finished since it was logged and no view change was finished for its instance before the next proposal |
| Histories.PanicsExactly | src/bft/consensus/log/mod.rs:323-332 | in every history `last_decision` panics if and only if one of those two things dropped the proposal |
| Histories.FaithfulExactly | src/bft/consensus/log/mod.rs:255-316 | in every history the certificate is exact if and only if no instance is running, or no checkpoint finished since its proposal, no view change for another instance found a proposal of it logged, and outside the COMMIT phase no older quorum of PREPAREs is logged |
| Histories.ProofExactly | src/bft/consensus/log/mod.rs:320-403 | in every history the log proves the last decision if and only if no checkpoint finished since its proposal and no view change for its instance found one of the lists without newer messages; no proof is found if only votes were dropped |
| Histories.DecisionIsCleared | src/bft/sync/mod.rs:957-966 | a history of one decision and a view change finished for that instance reaches the panic, without any checkpoint |
| Histories.VotesAreCleared | src/bft/sync/mod.rs:957-966 | with the next proposal logged before the view change, the lookup finds no proof instead, and the certificate is not exact |
| Histories.RecoveredNumber | src/bft/consensus/mod.rs:214-236 | in every history of the donor, the number a recovering replica goes on with is the instance in execution if and only if the donor is running that instance with its proposal logged, or logs no proposal and the replica is there already |
| Histories.ProofIsLost | src/bft/consensus/log/mod.rs:323-332 | a history of 1001 instances and one returning checkpoint reaches the panic |
| Certificates.LogStaysOrdered | src/bft/consensus/log/mod.rs:245-316 | in every history, whatever instances view changes were finished for, the three lists are sorted and bounded by the instance in execution, which is the running one, so no reverse scan hits its unreachable arm |
| Certificates.CheckpointsAtPeriods | src/bft/consensus/log/mod.rs:667-687 | in every history, whatever instances view changes were finished for, instance `i` is finalized as number `i` and begins a checkpoint if and only if `i` is a positive multiple of the period |
| ReplicaInvariants.StepKeepsLog | src/bft/consensus/log/mod.rs:561-580 | every step, with view changes finished for any instance, keeps the log ordered by instance and view, in step with the phase and with the last decision, and the decisions numbered |
| DecisionLogs.DropSuffixExact | src/bft/consensus/log/mod.rs:410-469 | clearing any instance leaves a prefix of each list; it takes all of the instance if that ends the list, and nothing otherwise |
| ReplicaInvariants.CheckpointKeepsLog | src/bft/consensus/log/mod.rs:712-749 | a returning checkpoint keeps the invariant even in the middle of an instance |
| ReplicaInvariants.ViewChangeKeepsLog | src/bft/sync/mod.rs:957-1004 | finishing a view change for any instance keeps the invariant |
| Votes.StepCounts | src/bft/consensus/mod.rs:531-622 | the phase counter always equals the matching votes accepted, in either voting phase |
| Votes.StepHolds | src/bft/consensus/mod.rs:92-120 | every vote delivered is in a queue or counted at most once, through queueing, polling and moving to the next instance |
| Votes.CommitSenders | src/bft/consensus/mod.rs:438-440 | as many COMMITs for a digest as were accepted, as many different senders |
| Votes.StepLogged | src/bft/consensus/log/mod.rs:561-580 | every PREPARE and COMMIT in the decision log was accepted from its sender |
| Requests.RequestsConserved | src/bft/consensus/log/mod.rs:641-665 | in every history the two parts of the pool are disjoint, and a proposal up for decision with distinct digests finds each request in proposal order and removes exactly those |
| Requests.StepKeepsPool | src/bft/consensus/mod.rs:495-512 | every step keeps the requests of a checked proposal in the pool until it is decided |
| Requests.DecisionFindsRequests | src/bft/consensus/log/mod.rs:641-690 | finalizing such a proposal fails if and only if a checkpoint is due while one is pending |
| Requests.GenuineBatch | src/bft/consensus/log/mod.rs:649-665 | the operations of a batch are the ones hashed into its digests, in order |
| Requests.StepKeepsDigests | src/bft/core/server/mod.rs:506-540 | every decision executes exactly the operations its proposal digest names |
| Replicas.Server.constructor | src/bft/core/server/mod.rs:124-204 | a fresh replica at instance 0 with an empty log |
| Replicas.Server.HandleConsensus | src/bft/core/server/mod.rs:506-549 | handling a consensus message equals the replica's transition, including the decided path and the stop on error |
| Replicas.Server.Decided | src/bft/core/server/mod.rs:525-538 | finalizes the batch, records the decision and moves on, or stops |
| Replicas.Server.DeliverMessage | src/bft/core/server/mod.rs:506-549 | a message from the network is one delivery step |
| Replicas.Server.TakeQueued | src/bft/core/server/mod.rs:446-450 | a turn that polls the queue is one polling step |
| Replicas.Server.TryToPropose | src/bft/core/server/mod.rs:451-457 | a proposing turn is one proposing step for the batch hash order picked |
| Replicas.Server.CheckpointReturned | src/bft/core/server/mod.rs:583-602 | a returning application state is one checkpoint step, or an error when none was pending |
| Replicas.Server.InstallNewView | src/bft/sync/mod.rs:946-1005 | finishing a view change for any instance settles on the bound proposal or the leader's, clears that instance, and enters the PREPARE phase of the replica's own one |
| Replicas.Server.Settle | src/bft/sync/mod.rs:957-966 | the requests are those of the latest proposal with the bound digest, or the leader's, and the instance is cleared |
| Replicas.Server.Adopt | src/bft/sync/mod.rs:968-996 | the forged proposal is logged and voted for under its own digest |
| NormalPhase.Consensus.constructor | src/bft/consensus/mod.rs:195-210 | starts idle with a buffer of `batchSize` zero digests |
| NormalPhase.Consensus.Propose | src/bft/consensus/mod.rs:243-263 | only an idle leader sends a PRE-PREPARE; any idle replica starts waiting for one |
| NormalPhase.Consensus.ProcessMessage | src/bft/consensus/mod.rs:430-624 | the phase machine equals its transition function and logs exactly the accepted messages |
| NormalPhase.Consensus.EnterProposal | src/bft/consensus/mod.rs:476-511 | accepting a proposal fills the batch, logs it, answers with a PREPARE unless leader, and waits if requests are missing |
| NormalPhase.Consensus.ScanMissing | src/bft/consensus/mod.rs:503-505 | lists exactly the digests that are not in the log |
| NormalPhase.Consensus.FinalizeViewChange | src/bft/consensus/mod.rs:290-323 | enters the PREPARE phase with the last logged proposal |
| NormalPhase.Consensus.ListPresent | src/bft/consensus/mod.rs:343-350 | the positions of the digests that have arrived, ascending |
| NormalPhase.Consensus.PruneMissing | src/bft/consensus/mod.rs:342-353 | the two loops equal swap-removal at the present positions in ascending order |
| NormalPhase.Consensus.PollQueue | src/bft/consensus/mod.rs:326-375 | polling equals its function: which queue is popped and which phase follows |
| NormalPhase.PruneProgress | src/bft/consensus/mod.rs:342-366 | a poll removes at least half of the digests that have arrived, rounded up, and never one that has not |
| NormalPhase.PollsTerminate | src/bft/consensus/mod.rs:342-366 | once all requests arrived, fewer than `2^k` missing digests are cleared by `k` polls |
| Waiting.EndsExactly | src/bft/consensus/mod.rs:342-366 | some events other than a view change end the wait for requests if and only if each missing digest is in the pool or one that a request can have |
| Waiting.WaitingEndsExactly | src/bft/consensus/mod.rs:342-366 | the same in every history |
| Waiting.ProposalStuckExactly | src/bft/consensus/mod.rs:476-511 | an accepted proposal makes the replica wait until the view changes if and only if its digests, those left behind it in the buffer or those still missing include one that no request has |
| Waiting.ShortProposalWaits | src/bft/consensus/mod.rs:503-505 | a history in which a first proposal of one request, with a buffer of two, does so |
| NormalPhase.TboQueue.constructor | src/bft/consensus/mod.rs:66-74 | an empty queue at the given instance |
| NormalPhase.TboQueue.Queue | src/bft/consensus/mod.rs:92-120 | files a message in the queue of its kind |
| NormalPhase.TboQueue.NextInstance | src/bft/consensus/mod.rs:83-88 | moves all three queues and the number together |
| NormalPhase.TboQueue.Install | src/bft/consensus/mod.rs:384-427 | jumps to a number, or reports the panic of a drain beyond a shorter queue |
| NormalPhase.Consensus.InstallSequenceNumber | src/bft/consensus/mod.rs:384-427 | a jump also resets the phase, unless it stays at the same number |
| NormalPhase.Consensus.InstallNewPhase | src/bft/consensus/mod.rs:214-236 | recovery jumps to the number of the last proposal in the donor's log, or stays without one, and signals the queue |
| NormalPhase.EnqueueKeepsValid | src/bft/consensus/mod.rs:92-120 | queueing keeps every bucket aligned with its instance |
| NormalPhase.NextInstanceRefines | src/bft/consensus/mod.rs:83-88 | moving on keeps every bucket aligned and the messages of all other instances, in order |
| NormalPhase.InstallNumberRefines | src/bft/consensus/mod.rs:384-427 | a jump panics if and only if a vote queue is too short for the drain; otherwise the queues stay aligned, and a jump within the PRE-PREPARE queue keeps the messages of the instances ahead |
| NormalPhase.JumpKeepsExactly | src/bft/consensus/mod.rs:386-418 | a jump keeps the messages of all instances ahead if and only if it stays within the PRE-PREPARE queue or no queued message is numbered ahead of the target |
| NormalPhase.JumpLosesVotes | src/bft/consensus/mod.rs:390-397 | without PRE-PREPAREs queued, a jump of one loses a COMMIT two instances ahead |
| NormalPhase.JumpPanics | src/bft/consensus/mod.rs:398-408 | without votes queued, a PRE-PREPARE two instances ahead makes a jump of one panic |
| Ordering.IndexCountsNext | src/bft/ordering/mod.rs:70-98 | `index` is `k` if and only if `k <= 1500` applications of `next` lead from one number to the other, across the wrap |
| Ordering.AdvanceClosedForm | src/bft/ordering/mod.rs:63-66 | `k` applications of `next` add `k` modulo `2^31` |
| Ordering.PartialCmpIsAntisymmetric | src/bft/ordering/mod.rs:47-55 | the windowed order is antisymmetric and equal only on equal numbers |
| Ordering.PartialCmpFollowsArc | src/bft/ordering/mod.rs:47-55 | it orders any circular arc of up to 10000 numbers along the arc |
| Ordering.OrdersAgreeInWindow | src/bft/ordering/mod.rs:17-55 | it agrees with the derived order if and only if the numbers are at most 10000 apart |
| Ordering.QueueAppendsToFifo | src/bft/ordering/mod.rs:115-137 | queueing appends to the FIFO of the message's number and changes no other, or drops it |
| Ordering.PopTakesOldest | src/bft/ordering/mod.rs:103-111 | popping takes the oldest message of the current number and nothing else |
| Ordering.AdvanceKeepsLaterFifos | src/bft/ordering/mod.rs:141-150 | advancing drops the current number's messages and keeps all others |
| Ordering.JumpKeepsAlignment | src/bft/consensus/mod.rs:400-411 | dropping `k` buckets keeps the rest aligned with the number `k` ahead |
| Ordering.JumpKeepsLaterFifos | src/bft/consensus/mod.rs:400-411 | and keeps the FIFO of every number still in the window |
| Ordering.PopContents | src/bft/ordering/mod.rs:103-111 | popping conserves messages |
| Core.QuorumsMeetExactly | src/bft/core/mod.rs:23-36 | of all sizes the constructor accepts, quorums always share a correct node if and only if `n = 3f + 1` |
| Core.QuorumsShareCorrect | src/bft/core/mod.rs:32-36 | two quorums of `3f + 1` nodes share a node outside any `f` faulty ones |
| DecisionLogs.ExecutingIsNext | src/bft/consensus/log/mod.rs:245-251 | the instance in execution is the successor of the last one except at the largest number |
| DecisionLogs.DecisionLog.constructor | src/bft/consensus/log/mod.rs:200-208 | an empty log |
| DecisionLogs.DecisionLog.Push | src/bft/consensus/log/mod.rs:569-576 | appends a message to the list of its kind |
| DecisionLogs.DecisionLog.ExtractIncomplete | src/bft/consensus/log/mod.rs:255-316 | both reverse scans together give the certificate, or the panic of their unreachable arms |
| DecisionLogs.DecisionLog.ScanProposals | src/bft/consensus/log/mod.rs:259-276 | the scan for proposals equals the recursive write set |
| DecisionLogs.DecisionLog.ScanPrepares | src/bft/consensus/log/mod.rs:278-309 | the counting scan with its view reset equals the recursive quorum write |
| DecisionLogs.DecisionLog.ExtractProof | src/bft/consensus/log/mod.rs:320-403 | the proof, the cases without one and the panic |
| DecisionLogs.DecisionLog.CollectVotes | src/bft/consensus/log/mod.rs:333-391 | the flagged scan returns the last run of votes of an instance and view |
| DecisionLogs.DecisionLog.ClearInstance | src/bft/consensus/log/mod.rs:410-469 | index lists and swap-removals drop exactly the trailing messages of the instance and return the latest proposal with the bound digest |
| DecisionLogs.DecisionLog.ClearProposals | src/bft/consensus/log/mod.rs:432-463 | the same for the proposals, where one element is swapped out first |
| DecisionLogs.DecisionLog.ClearList | src/bft/consensus/log/mod.rs:417-431 | the same for one list of votes |
| DecisionLogs.QuorumWriteExact | src/bft/consensus/log/mod.rs:278-309 | on an ordered list the counting scan never panics, reports only views with enough PREPAREs, and if any view has enough, one that is not earlier |
| DecisionLogs.WriteSetExact | src/bft/consensus/log/mod.rs:259-276 | on an ordered list the write set is the proposals of the instance, from the last to the first |
| DecisionLogs.LastVotesExact | src/bft/consensus/log/mod.rs:333-391 | on an ordered list the scan returns the votes of the latest view of the instance, each as often as it was logged, and no others |
| Logs.Log.constructor | src/bft/consensus/log/mod.rs:492-504 | an empty log without a checkpoint |
| Logs.Log.InsertRequest | src/bft/consensus/log/mod.rs:561-568 | files a request under its unique digest, taking it out of the batch being decided |
| Logs.Log.NextBatch | src/bft/consensus/log/mod.rs:583-602 | moves the oldest request to the batch and offers `batchSize` different pending digests once there are enough |
| Logs.Log.TakeBatch | src/bft/consensus/log/mod.rs:649-658 | the removal loop takes the requests in order from either part of the pool, or stops at the first missing one with the earlier ones gone |
| Logs.Log.Finalize | src/bft/consensus/log/mod.rs:641-705 | takes the requests of a batch in order, records them, begins a checkpoint when due, and leaves the state of either error path |
| Logs.Log.EndCheckpoint | src/bft/consensus/log/mod.rs:712-749 | completes a pending checkpoint and empties the log, remembering the last number |
| Logs.Log.Install | src/bft/consensus/log/mod.rs:519-526 | takes over a received state |
| Logs.AddRequestExact | src/bft/consensus/log/mod.rs:561-568 | after an insert that digest finds the new request and every other digest what it found before |
| Logs.PopRequestExact | src/bft/consensus/log/mod.rs:583-585 | moving a request to the batch keeps the two parts disjoint and every lookup the same |
| Logs.TakeAllExact | src/bft/consensus/log/mod.rs:649-658 | taking distinct digests succeeds if and only if all are there, yields them in order and removes exactly those |
| Logs.DigestFixesOperation | src/bft/communication/message/mod.rs:94-95 | two replicas that file genuine requests under one digest hold the same operation |
| Executors.Executor.Handle | src/bft/executable/mod.rs:183-224 | one request of the queue: install and replay, or execute a batch and report replies, with the state when asked |
| Executors.Executor.Run | src/bft/executable/mod.rs:191-199 | the loop over a batch equals the fold of `update`, with one reply per operation |
| Executors.ReplayConcat | src/bft/executable/mod.rs:184-189 | replaying a concatenation is replaying one part after the other |
| Executors.DrainConcat | src/bft/executable/mod.rs:182-183 | draining a queue may stop and go on at any point |
| Snapshots.SnapshotRoundTrip | src/bft/cst/mod.rs:49-76 | in runs without overlap, a replica that installs a snapshot, whatever number it was at, reaches the donor's drained state and would hand out the same snapshot; it keeps the invariant if and only if no application state of its own is on the way |
| Snapshots.LateStateStops | src/bft/consensus/log/mod.rs:717-719 | an application state of its own that returns after recovery and before a checkpoint is begun is an error that stops the replica |
| Snapshots.StoresPending | src/bft/consensus/log/mod.rs:720-724 | a returning application state is stored if and only if a checkpoint is pending, under the number of that checkpoint |
| Snapshots.StaleStateStored | src/bft/consensus/log/mod.rs:720-724 | a state asked for before the recovery, back after the next checkpoint is begun, is stored as that checkpoint, and snapshots are wrong from then on |
| Snapshots.RunKeeps | src/bft/consensus/log/mod.rs:641-749 | under every interleaving of decisions, executions and returning states, checkpoint plus recorded and lost operations make up what the executor will have executed |
| Snapshots.RunLosesNothing | src/bft/consensus/log/mod.rs:712-749 | runs that finalize nothing while a checkpoint is pending lose nothing |
| Snapshots.FaithfulExactly | src/bft/consensus/log/mod.rs:536-550 | for a service that records its operations, a complete checkpoint with the decided operations gives the donor's state if and only if nothing was lost |
| Snapshots.BatchIsLost | src/bft/consensus/log/mod.rs:720-724 | a run through instances 0 to 1001, each with its request and proposal, finalizes a batch while a checkpoint is pending and loses it |
| Prng.State.constructor | src/bft/prng/mod.rs:16-25 | a seed, jumped once |
| Prng.State.NextState | src/bft/prng/mod.rs:29-43 | the in-place xors, shift and rotation equal one step of the state function, with its output |
| Prng.State.Jump | src/bft/prng/mod.rs:46-75 | the nested loops accumulate exactly the selected states of 256 steps |
| Prng.State.JumpWord | src/bft/prng/mod.rs:59-68 | the 64 steps for one word of the jump polynomial |
| Prng.AdvanceIsInvertible | src/bft/prng/mod.rs:29-43 | the state step has an inverse on both sides |
| Prng.AdvanceIsLinear | src/bft/prng/mod.rs:29-43 | the state step is linear over xor |
| Prng.AdvanceKeepsNonZero | src/bft/prng/mod.rs:29-43 | only the zero state steps to the zero state |
| Prng.LongJumpCommutes | src/bft/prng/mod.rs:46-75 | the long jump is linear over xor and commutes with any number of steps |

## Left out

- Sockets, TLS, channels, the async runtime, thread pool and bootstrap loop: the network is a growing set of sender-authenticated messages.
- Hashing, signing, serialization and the header layout: symbolic digests and validity oracles stand for them.
- The exchange of state-transfer messages: only the installation of a received state is modelled, in the log, the executor and the consensus queue.
- Agreement over several view changes, and liveness: `AgreementHolds` is about one view at a time, `AgreementAcrossViews` about one view change.
- Timers and the `watching` table of the synchronizer: a timeout is an event that may happen at any time.
- Alignment of the synchronizer's own queue: the view moves before the buckets do, so no bucket invariant is claimed for it.
- `clone_requests`, `view_change_propose`, forwarded requests, read-only execution and the client side: they would only add easy members.
- Synchronizers.Synchronizer.BeginViewChange: does not say which client requests the STOP carries, nor that timers stop; the count of senders does not depend on them.
- Synchronizers.Synchronizer.CountStop: does not add the requests of STOPs to the log and the timers; insertion itself is `Logs.Log.InsertRequest`.
- Synchronizers.Synchronizer.Finalize: does not settle and forge the proposal, which is `Replicas.Server.InstallNewView`.
- Replicas.Server.constructor: starts at instance 0 with nothing received, where the code can also start from a configured sequence number.
- Snapshots.FaithfulExactly: stated for the service that records its operations, because other services may map different histories to one state.
- Prng.State.NextState: words are sequences of 64 bits, and seeds are parameters instead of operating system entropy.
