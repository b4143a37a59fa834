# BasisDB in Dafny

BasisDB is a replicated key-value database. Its centre is a Raft automaton without I/O, a
store of state deltas over a segmented write-ahead log, and a deterministic key-value machine
fed by the replicated log. This project models these three, ties them together, and proves
what holds of every run of the whole.

## How it is put together

* **The automaton.** `Types`, `Membership`, `Log`, `Event`, `Core`, `Follower`,
  `PreCandidate`, `Candidate`, `Leader` and `Node` are the node as functions on values.
  `Reconfigure` adds proposals of configuration changes. `RaftObject` is the node as an object
  that changes its fields in place; each of its methods is proved to do what the function does.
* **What each operation does.** `LogRules`, `Heartbeat`, `Proposals`, `Acks`, `Elections` and
  `ReadRules` say of whole events and requests, for every node and every input, what is sent to
  whom, what changes and what is refused, in terms of entries, voters and terms; `KvRules`,
  `WalRules` and `StoreRules` do so for commands, records and deltas.
* **The protocol.** `Protocol` is what a server may do in one small step. `History`
  records what a run leaves behind, and `LogMatching`, `Completeness`, `ReadIndex`,
  `CommitSafety`, `ReadSafety` and `Invariant` prove what every step keeps.
  `Refinement`, `RefineRoles`, `RefineLeader` and `RefineStep` prove that every event of a
  real node is a chain of such steps.
* **The cluster.** `Cluster` is a set of nodes with durable copies and a network that may
  lose, repeat and reorder messages; nodes tick, receive, propose, read, hand over and crash.
  `Safety` carries the invariant through one step and `Theorems` states what holds of every
  run, `ReadTheorems` and `ReadRounds` those about reads. `ThreeServers` and `Script` build runs
  of three servers with the node's own options step by step; `Divergence`, `StaleRead`,
  `EchoRead` and `PastEnd` are four runs that show which hypotheses are needed. `CommitBound`
  says exactly when commit indices stay within their logs.
* **Durability.** `WalFormat`, `WalSegment`, `WalLog`, `WalCrash` and `WalRun` are the log,
  what may fail and what a crash may leave; `WalHandle` is the handle and the iterator.
  `Store`, `StoreRun` and `StoreHandle` are the deltas, and `NodeDurability` joins them to the
  runs of the cluster.
* **The data.** `Kv`, `KvEtag` and `KvMachine` are the key-value machine, `Order` and
  `Browse` its ordered pages. `Runtime` is the object that steps, persists, sends and applies,
  proved to move as the cluster does; `Numbering` is what it relies on, and `Replication`
  what agreement on the log means for the data.

## Where the code does not keep a promise

* **Commit.** A follower acknowledges its whole last index
  (consensus/basisdb-raft/src/raft/follower.rs:212-215) and the leader counts it as
  replicated (consensus/basisdb-raft/src/raft/leader.rs:424). A suffix of an older leader is
  counted in. `Divergence.StateMachineSafetyFails` is a run of three servers in which two
  of them apply different commands. `Theorems.StateMachineSafety` holds of every honest run: one in
  which each acknowledged log is a prefix of its leader's. A server cannot see its leader's
  log, but a run is honest if each acknowledged log ends where the request ends, or in an
  entry of the leader's own term (`Theorems.LocallyHonestIsHonest`).
* **Reads.** `read_index_ready` compares indices, not rounds. `StaleRead.ReadyTooEarly` is a
  run in which a read is ready at once although a leader of a later term has committed more.
  `ReadTheorems.ReadReadyIff` says exactly when: if its own round is confirmed, or its leader
  requested one at the same commit index before.
* **Read rounds.** A late answer to a round of an older term also counts
  (`ReadRounds.StaleAnswerCounts`). `EchoRead.ConfirmedByEcho` is a run in which such an answer
  confirms a round although a later term had a leader. `ReadTheorems.ReadLeaders` shows that
  it takes a round numbered alike in an older term; in honest runs there is none
  (`CommitSafety.NoEcho`, `ReadTheorems.ReadIndexSound`).
* **Proposals.** `core.rs` asserts that the commit index lies within the log.
  `PastEnd.ProposalPanics` is a run in which it does not; in honest runs it always does
  (`PastEnd.NeverPanics`), and in any run exactly if no request that is delivered cuts below
  it without naming a later commit index (`CommitBound.WithinIff`).
* **Batches.** `max_entries_per_msg` is passed to a slice whose end is included.
  `LeaderRole.BatchSize` says that a message carries one entry more, and exactly when.
* **Reopening.** A segment that needs no repair is not synced when it is reopened
  (basisdb-wal/src/segment.rs:22-28). `StoreRun.ReadBackLost` is a life of a store in which
  a state is read back after the process died in a save, and lost in a power failure. What is
  in the log is safe exactly if it has been synced since (`WalRun.StableIff`): the durable copy
  is from the first save after the reopening on (`StoreRun.StoreLife`), and always, if all
  crashes are power failures (`StoreRun.SettledEver`). Until then a node may acknowledge what a
  power failure takes away (`NodeDurability.AcknowledgedThenLost`).
* **Rotation.** When the directory cannot be synced, an empty segment stays behind while the
  old one is still written to. `WalCrash.ReopenExact` says exactly when such a log can
  be reopened, and `WalRun.RotationRefused` is a life that ends in one that cannot. If only
  the process dies, what was not synced of the old file never is (`WalRun.LeftBehind`).
* **Persistence with a snapshot.** `Merging.LostPersistIff` says exactly when an append request
  changes the log without asking for persistence: when its last entry conflicts with the
  snapshot at the snapshot index and the log has entries. The node never has a snapshot, and without
  one it cannot happen (`Merging.UnpersistedMerge`).
* **Deltas.** `Store.ReplayExactIff` says exactly when a saved delta rebuilds the state. The
  runs of the cluster always meet the condition (`NodeDurability.RunStatesFollow`).

## Model

| member | source | states |
|---|---|---|
| `Membership.NewMembers` | consensus/basisdb-raft/src/raft/membership.rs:305-328 | A member set is built from any two lists iff no server is in both; otherwise the first learner that is also a voter is named. |
| `Membership.ValidatedChangeIsSound` | consensus/basisdb-raft/src/raft/membership.rs:358-440 | An accepted change leaves somebody voting and no new voter among the learners. |
| `Membership.ValidatedChangeIsSafe` | consensus/basisdb-raft/src/raft/membership.rs:358-483 | Every quorum of the configuration before an accepted change meets every quorum of the one it makes, in either mode. |
| `Membership.CompletionIsSafe` | consensus/basisdb-raft/src/raft/membership.rs:275-282 | Completing a joint configuration is as safe: quorums of the joint one and of its target meet. |
| `Membership.ReconfigurationIsSafe` | consensus/basisdb-raft/src/raft/membership.rs:442-483 | A whole reconfiguration goes through steps whose quorums meet pairwise, through a joint one exactly if the mode is joint and the voters differ, and ends with exactly the voters and learners that the change asks for, said of each server. |
| `Membership.AcceptedIff` | consensus/basisdb-raft/src/raft/membership.rs:358-440 | A change is accepted iff none is under way and it does something: which servers must vote or learn for each kind. |
| `Membership.RefusedAs` | consensus/basisdb-raft/src/raft/membership.rs:358-440 | Each refusal of a change of one server is given under exactly its own condition. |
| `Membership.SetRefusedAs` | consensus/basisdb-raft/src/raft/membership.rs:358-440 | Why a new set of members is refused, in the order in which it is noticed; the server named is the least that would both vote and learn. |
| `Membership.QuorumIff` | consensus/basisdb-raft/src/raft/membership.rs:147-250 | A quorum is more than half of the voters, of each set in a joint configuration; the lists have exactly the voters and the members. |
| `RaftLog.CompactionInvisible` | consensus/basisdb-raft/src/raft/log.rs:153-171 | Cutting the prefix at an index of the log with its own term changes no answer above it and keeps term and configuration at the cut. |
| `LogRules.EntriesAt` | consensus/basisdb-raft/src/raft/log.rs:93-130 | There is an entry at exactly the indices past the snapshot up to the last, each under its own number, with the terms that the queries give. |
| `LogRules.AppendedAt` | consensus/basisdb-raft/src/raft/log.rs:132-139 | Appending adds the next entry and leaves the others. |
| `LogRules.CutAt` | consensus/basisdb-raft/src/raft/log.rs:141-151 | Cutting keeps the entries up to the index and no other. |
| `LogRules.SliceAt` | consensus/basisdb-raft/src/raft/log.rs:197-216 | A slice is the entries from one index to another, as far as the log has them. |
| `LogRules.ConfigIs` | consensus/basisdb-raft/src/raft/log.rs:232-245 | The configuration at an index is that of the last entry up to there that has one. |
| `LogRules.ConfigOfSnapshot` | consensus/basisdb-raft/src/raft/log.rs:232-245 | If there is none it is the snapshot's. |
| `LogRules.InForce` | consensus/basisdb-raft/src/raft/core.rs:320-331 | The configuration in force is the last one in the log, committed or not; without any, the snapshot's or the one the server started with. |
| `LeaderRole.ProcessCommitted` | consensus/basisdb-raft/src/raft/leader.rs:606-632 | When the scan of committed configurations goes on, strictly fewer joint configurations are uncommitted although an entry was appended. |
| `LeaderRole.CompletionShrinks` | consensus/basisdb-raft/src/raft/leader.rs:685-702 | Committing a joint configuration and appending its target lowers the number of uncommitted joint configurations, which is why the commit loop terminates. |
| `CommitLoop.HighestIs` | consensus/basisdb-raft/src/raft/leader.rs:582-602 | The search returns the highest current-term index with a quorum, or the old commit index if there is none. |
| `CommitLoop.CommitMaximal` | consensus/basisdb-raft/src/raft/leader.rs:550-576 | After the loop nothing later of the current term has a quorum in the configuration in force; if it steps down, a configuration without this server was committed. |
| `LeaderRole.BatchSize` | consensus/basisdb-raft/src/raft/leader.rs:741-744 | A request carries consecutive entries, one more than the configured number if the log has it; it keeps to the number iff no more are left. |
| `Heartbeat.BroadcastIs` | consensus/basisdb-raft/src/raft/leader.rs:705-765 | Every other member is sent the log from where it is to go on, at least one entry if one is left, or the snapshot if that is not past it; nobody else is sent anything. |
| `Heartbeat.Heartbeat` | consensus/basisdb-raft/src/raft/leader.rs:397-410 | A heartbeat does that, repeats the read round in progress to exactly the other voters of its configuration, and changes nothing but where members are to go on. |
| `Heartbeat.IdleTick` | consensus/basisdb-raft/src/raft/leader.rs:397-410 | A tick before the deadline does nothing, in any role. |
| `Heartbeat.Rejected` | consensus/basisdb-raft/src/raft/leader.rs:412-455 | A member that refused is served from where its answer says, or past what it is known to hold if that is more, and nobody else is sent anything. |
| `Heartbeat.Unknown` | consensus/basisdb-raft/src/raft/leader.rs:412-420 | The answer of a server that is no member changes nothing. |
| `Acks.HeldIff` | consensus/basisdb-raft/src/raft/leader.rs:582-602 | An index can be committed iff its entry is of the current term and more than half of every set of voters in force are known to hold the log up to it. |
| `Acks.LoopCommits` | consensus/basisdb-raft/src/raft/leader.rs:550-632 | The commit index becomes the last such index; the first joint configuration that this commits is completed, saved and sent to its members, and at the first without this server it stops leading and hands over. |
| `Acks.Accepted` | consensus/basisdb-raft/src/raft/leader.rs:412-455 | A member's acknowledgement is noted for it alone, and then the same. |
| `Acks.Written` | consensus/basisdb-raft/src/raft/leader.rs:382-396 | The same for the leader's own write; an older one does nothing. |
| `Acks.TransferHandsOver` | consensus/basisdb-raft/src/raft/leader.rs:637-682 | Leadership is handed to a voter of the new configuration that has the whole log, if there is one, and otherwise to nobody. |
| `Acks.ProgressFilled` | consensus/basisdb-raft/src/raft/leader.rs:280-291 | Progress is added for members that have none and kept for the others. |
| `Proposals.ProposalPlaced` | consensus/basisdb-raft/src/raft/leader.rs:193-212 | The index a proposal returns was free; the entry there then has the command and the leader's term, what was before is as it was, and after it come only configurations; it is to be saved. |
| `Proposals.ProposalSent` | consensus/basisdb-raft/src/raft/leader.rs:193-212 | When nothing commits at once, every other member is served from the new log and nobody else is sent anything. |
| `Acks.ProposalCommits` | consensus/basisdb-raft/src/raft/leader.rs:193-212 | A proposal counts the leader itself, commits as far as then can be, and goes on leading unless that takes it out of the voters. |
| `Acks.ProposalInforms` | consensus/basisdb-raft/src/raft/leader.rs:193-212 | Whatever commits at once, every other member of the configuration then in force is sent the log as it then is. |
| `Proposals.ProposalIff` | consensus/basisdb-raft/src/raft/core.rs:233-255 | A leader takes a proposal iff fewer entries than the limit are uncommitted and their bytes and the command's are within the limit; who does not lead says whom it follows. |
| `Reconfigure.ChangeIff` | consensus/basisdb-raft/src/raft/leader.rs:219-251 | A change is taken iff it is acceptable, a learner to be promoted has the whole log and no configuration is uncommitted. |
| `Reconfigure.ChangePlaced` | consensus/basisdb-raft/src/raft/leader.rs:253-277 | Its configuration is put at an index that was free, is to be saved, and is sent to the other members. |
| `Reconfigure.ReconfiguredSafely` | consensus/basisdb-raft/src/raft/leader.rs:219-277 | Whatever a node does but merge requests, at most one configuration of its log is uncommitted and the quorums of each meet those of the one before it, through changes, commits, completions of joint configurations, elections and stepping down. |
| `Reconfigure.StartsKept` | consensus/basisdb-raft/src/raft/mod.rs:185-191 | A new node has such a log. |
| `Elections.GuardDenies` | consensus/basisdb-raft/src/raft/follower.rs:59-65 | Who heard from a leader lately, or is a candidate that did, denies votes and pre-votes and keeps term and vote. |
| `Elections.VoteIff` | consensus/basisdb-raft/src/raft/follower.rs:128-153 | Otherwise a follower grants its vote iff the candidate is a voter with a log as recent as its own, in a term that is not past and in which it has not voted for another; it keeps and saves it. |
| `Elections.VoteDenied` | consensus/basisdb-raft/src/raft/candidate.rs:191-200 | No other role grants a vote in its own term or an older one. |
| `Elections.PreVoteIff` | consensus/basisdb-raft/src/raft/follower.rs:358-378 | A pre-vote is granted, outside the guard and by no leader, iff the candidate is a voter with such a log and asks for a newer term; it changes nothing. |
| `Elections.NewerTerm` | consensus/basisdb-raft/src/raft/candidate.rs:96-141 | Who does not follow gives way to a newer term, without a vote in it. |
| `Elections.OlderTerm` | consensus/basisdb-raft/src/raft/follower.rs:320-339 | A request of an older term changes nothing; append requests, and read rounds by a follower, are answered with the newer term; a pre-candidate alone follows the sender. |
| `Elections.LeaderHeard` | consensus/basisdb-raft/src/raft/candidate.rs:179-189 | A candidate that hears from the leader of its term follows it. |
| `Elections.AppendIff` | consensus/basisdb-raft/src/raft/follower.rs:155-218 | A follower takes entries iff its log has the entry before them with its term, and answers with where its log then ends; the commit index follows the leader's as far as the log goes. |
| `Elections.RoundAnswered` | consensus/basisdb-raft/src/raft/follower.rs:221-241 | A follower answers a read round with its numbers. |
| `Elections.DeadlinePasses` | consensus/basisdb-raft/src/raft/follower.rs:114-126 | A deadline that passes starts a campaign or first a pre-campaign: the next term, a vote for itself if it is a voter, requests to exactly the other voters; the only voter leads at once. |
| `Elections.ToldToCampaign` | consensus/basisdb-raft/src/raft/follower.rs:54-112 | A follower told to campaign does so in the next term, unless it is told in an older one. |
| `Elections.CandidateTold` | consensus/basisdb-raft/src/raft/candidate.rs:96-141 | So does a candidate. |
| `Elections.VoteCounted` | consensus/basisdb-raft/src/raft/candidate.rs:158-177 | A vote counts for its sender, and a majority of every set of voters makes the candidate lead. |
| `Elections.PreVoteCounted` | consensus/basisdb-raft/src/raft/precandidate.rs:150-178 | So does a pre-vote for the campaign; an answer from a newer term ends the pre-campaign. |
| `Elections.LeaderStarts` | consensus/basisdb-raft/src/raft/leader.rs:68-102 | A new leader takes members to hold nothing and to go on after its own log, and tells every other one. |
| `Elections.TransferIff` | consensus/basisdb-raft/src/raft/leader.rs:304-336 | A leader tells a server to campaign iff that is another voter known to have the whole log. |
| `ReadRules.ScanIff` | consensus/basisdb-raft/src/raft/leader.rs:175-187 | The scan succeeds iff some entry up to the index is of the current term and none after it is of that term or older. |
| `ReadRules.ReadIff` | consensus/basisdb-raft/src/raft/leader.rs:128-173 | A round starts iff the leader has none in progress and has committed in its term; it is for the commit index, under the next number, and asks exactly the other voters, unless one vote is a majority. |
| `ReadRules.AnswerIff` | consensus/basisdb-raft/src/raft/leader.rs:482-501 | An answer counts iff it is of a voter of the round's configuration with the round's number and index, and a majority confirms the index. |
| `Merging.MergeIsMergeAt` | consensus/basisdb-raft/src/raft/follower.rs:173-196 | The entry-by-entry loop is one cut at the first disagreement followed by one extension. |
| `Merging.UnpersistedMerge` | consensus/basisdb-raft/src/raft/follower.rs:173-196 | Without a snapshot a merge that asks for no persistence changed nothing, whatever entries arrive. |
| `Merging.PersistsIffChanged` | consensus/basisdb-raft/src/raft/follower.rs:173-208 | For numbered entries persistence is asked for iff the log changed. |
| `Merging.SnapshotBoundaryLosesPersist` | consensus/basisdb-raft/src/raft/follower.rs:173-196 | With a snapshot a conflicting entry at the snapshot index clears the log and asks for nothing: a concrete case. |
| `Merging.LostPersistIff` | consensus/basisdb-raft/src/raft/follower.rs:173-196 | For a numbered request, the append loop changes the log without asking for persistence iff the last entry sits at the snapshot index with another term than the snapshot and the log has entries. |
| `Merging.AcceptedStretch` | consensus/basisdb-raft/src/raft/follower.rs:155-218 | An accepted stretch is in the log afterwards on the leader prefix, what was shared is kept, and the log is cut only on a real conflict. |
| `Merging.RedeliveryIsIdle` | consensus/basisdb-raft/src/raft/follower.rs:155-218 | Delivering a request again changes nothing. |
| `Merging.AnyOrder` | consensus/basisdb-raft/src/raft/follower.rs:155-218 | Requests cut from one growing leader log never take back what is shared or shorten a prefix of it, in whatever order and number they arrive. |
| `Persist.EventCovered` | consensus/basisdb-raft/src/raft/mod.rs:390-457 | Any tick, message or disk signal that changes term, vote or log of any node, through every chained role change, asks for persistence. |
| `Persist.ProposalCovered` | consensus/basisdb-raft/src/raft/mod.rs:290-308 | A proposal always asks for persistence. |
| `RaftObject.RaftMachine.MergeEntries` | consensus/basisdb-raft/src/raft/follower.rs:173-196 | The loop in place computes the merge and its persistence flag. |
| `RaftObject.RaftMachine.HandleAppendRequest` | consensus/basisdb-raft/src/raft/follower.rs:155-218 | In place, the whole append handler: consistency check, merge, commit index, answer. |
| `RaftObject.RaftMachine.HandleVoteRequest` | consensus/basisdb-raft/src/raft/follower.rs:128-153 | A vote is granted only to a voter with an up-to-date log, and only if no vote or the same vote was cast; a vote once cast never changes, and the one answer says yes iff persistence is asked for. |
| `RaftObject.RaftMachine.FollowerMessage` | consensus/basisdb-raft/src/raft/follower.rs:54-112 | In place, every message to a follower. |
| `RaftObject.RaftMachine.PreCandidateMessage` | consensus/basisdb-raft/src/raft/precandidate.rs:95-178 | No message touches the log or, within a term, the vote; the term rises only to one named in the message, with stepping down and persistence; only the sender is added to the pre-votes, and an election needs a quorum of them or a transfer. |
| `RaftObject.RaftMachine.CandidateMessage` | consensus/basisdb-raft/src/raft/candidate.rs:96-177 | No message touches the log or, within a term, the vote; the term rises only to the one in the message, with stepping down and persistence; only a yes of this term is counted, for its sender, and leading needs a quorum. |
| `RaftObject.RaftMachine.SendAppendTo` | consensus/basisdb-raft/src/raft/leader.rs:719-765 | What is sent carries exactly the stretch of the log that starts where the receiver is thought to be, with the entry before it and the commit index; nothing but the expected next index changes. |
| `RaftObject.RaftMachine.BroadcastAppend` | consensus/basisdb-raft/src/raft/leader.rs:705-709 | In place, one request to each other server in order. |
| `RaftObject.RaftMachine.AdvanceCommitIndex` | consensus/basisdb-raft/src/raft/leader.rs:582-602 | The downward search in place finds the highest committable index. |
| `RaftObject.RaftMachine.ReinitProgress` | consensus/basisdb-raft/src/raft/leader.rs:280-291 | Progress is added for servers that have none and kept for the others. |
| `RaftObject.RaftMachine.TryAutoTransfer` | consensus/basisdb-raft/src/raft/leader.rs:637-682 | The best-so-far scan tells the first caught-up other voter, and nobody if there is none. |
| `RaftObject.RaftMachine.ProcessCommittedConfigs` | consensus/basisdb-raft/src/raft/leader.rs:606-632 | In place, the scan of committed configurations. |
| `RaftObject.RaftMachine.MaybeCommit` | consensus/basisdb-raft/src/raft/leader.rs:550-576 | The commit loop in place, with its termination measure. |
| `RaftObject.RaftMachine.HandleAppendResponse` | consensus/basisdb-raft/src/raft/leader.rs:412-455 | In place, acknowledgements and rejections. |
| `RaftObject.RaftMachine.HandleReadIndexResponse` | consensus/basisdb-raft/src/raft/leader.rs:482-501 | An answer counts only from a voter and with number and index of the pending round; the confirmed index never falls, and rises only to that of a round a quorum has answered. |
| `RaftObject.RaftMachine.LeaderMessage` | consensus/basisdb-raft/src/raft/leader.rs:338-376 | In place, every message to a leader. |
| `RaftObject.RaftMachine.HandleDiskWrite` | consensus/basisdb-raft/src/raft/leader.rs:382-396 | In place, the completion of a disk write. |
| `RaftObject.RaftMachine.Propose` | consensus/basisdb-raft/src/raft/mod.rs:290-308 | In place, a proposal: refused when not leading or throttled; otherwise the command is put at the index returned, which was free, and nothing before it changes. |
| `RaftObject.RaftMachine.HasPendingConfig` | consensus/basisdb-raft/src/raft/log.rs:249-256 | The backward scan finds whether a configuration is uncommitted. |
| `RaftObject.RaftMachine.ChangeRefusal` | consensus/basisdb-raft/src/raft/leader.rs:224-251 | In place, the first reason to refuse a change. |
| `RaftObject.RaftMachine.AppendConfig` | consensus/basisdb-raft/src/raft/leader.rs:253-277 | In place, a new configuration is appended, perhaps committed, and sent. |
| `RaftObject.RaftMachine.ProposeChange` | consensus/basisdb-raft/src/raft/leader.rs:219-277 | In place, a configuration change; it leaves at most one configuration uncommitted and the quorums of neighbours meeting. |
| `RaftObject.RaftMachine.CurrentTermCommitted` | consensus/basisdb-raft/src/raft/leader.rs:175-187 | The backward scan decides whether a committed entry of the current term is reached before an older term. |
| `RaftObject.RaftMachine.RequestReadIndex` | consensus/basisdb-raft/src/raft/leader.rs:128-159 | In place, the start of a read round. |
| `RaftObject.RaftMachine.BecomeCandidate` | consensus/basisdb-raft/src/raft/candidate.rs:39-80 | In place, an election, leading at once if one vote is a quorum. |
| `RaftObject.RaftMachine.BecomeLeader` | consensus/basisdb-raft/src/raft/leader.rs:68-102 | In place, the progress a new leader starts from, and its first heartbeats. |
| `RaftObject.RaftMachine.ApplyTransition` | consensus/basisdb-raft/src/raft/mod.rs:407-457 | In place, the chained role changes. |
| `RaftObject.RaftMachine.StepEvent` | consensus/basisdb-raft/src/raft/mod.rs:390-405 | In place, a whole event: the role, then the transition, effects merged in that order; a leader's heartbeat serves every other member and repeats a read round in progress, and a tick before the deadline does nothing. |
| `RefineStep.EventRefined` | consensus/basisdb-raft/src/raft/mod.rs:390-457 | Every event of a node is a chain of protocol steps that sends exactly its messages. |
| `RefineStep.ProposalRefined` | consensus/basisdb-raft/src/raft/leader.rs:193-214 | A proposal is append, perhaps commit, then send. |
| `RefineLeader.RequestReadRefined` | consensus/basisdb-raft/src/raft/leader.rs:128-159 | A read request is the start of a round, then its confirmation or its questions. |
| `RefineLeader.CommitRefined` | consensus/basisdb-raft/src/raft/leader.rs:582-602 | A commit is of a current-term entry that a majority of the voters is counted for. |
| `RefineLeader.CommittedInTermMeans` | consensus/basisdb-raft/src/raft/leader.rs:175-187 | The scan only succeeds on an entry of the current term at or below the commit index. |
| `RefineRoles.HandleVoteRefined` | consensus/basisdb-raft/src/raft/follower.rs:128-153 | A granted vote is the one vote of the term, for an up-to-date log. |
| `RefineRoles.HandleAppendRefined` | consensus/basisdb-raft/src/raft/follower.rs:155-218 | An accepted append is the protocol merge, with the follower commit index. |
| `RefineRoles.TransitionRefined` | consensus/basisdb-raft/src/raft/mod.rs:407-457 | Every role change is reachable by protocol steps; leading needs a majority of votes. |
| `History.FreshWin` | consensus/basisdb-raft/src/raft/candidate.rs:158-177 | A term that has a leader cannot elect another: two majorities share a voter with one vote. |
| `History.ElectionInvStep` | consensus/basisdb-raft/src/raft/core.rs:258-290 | Every step keeps the record of votes, campaigns and elections true. |
| `LogMatching.MergeMatches` | consensus/basisdb-raft/src/raft/follower.rs:165-196 | Merging a stretch of a matching log gives the old log or exactly the other one up to the end of the stretch. |
| `LogMatching.LogInvStep` | consensus/basisdb-raft/src/raft/leader.rs:719-765 | Every step keeps every log in agreement, through each entry, with the leader of that entry's term. |
| `Completeness.LeaderHas` | consensus/basisdb-raft/src/raft/core.rs:296-300 | What a majority held in its own term was in the log every later leader campaigned with, by induction over terms. |
| `Completeness.HeldInvStep` | consensus/basisdb-raft/src/raft/follower.rs:128-217 | Every step keeps what voters held when they voted. |
| `ReadIndex.ReadInvStep` | consensus/basisdb-raft/src/raft/follower.rs:221-241 | Every step keeps that an answer to a round is fresh or echoes an older round. |
| `ReadIndex.FreshRoundSound` | consensus/basisdb-raft/src/raft/leader.rs:482-501 | A round answered by a majority of fresh answers was requested before any later term had a leader. |
| `CommitSafety.CommittedAgree` | consensus/basisdb-raft/src/raft/leader.rs:582-602 | Two committed prefixes agree as far as both go. |
| `CommitSafety.CommitInvStep` | consensus/basisdb-raft/src/raft/follower.rs:198-201 | While every acknowledged log is a prefix of its leader's, every step keeps commit indices within what a majority held. |
| `CommitSafety.NoEcho` | consensus/basisdb-raft/src/raft/follower.rs:320-339 | Then an echo never carries the numbers of a round its addressee asked for in a later term. |
| `ReadSafety.MarkInvStep` | consensus/basisdb-raft/src/raft/follower.rs:198-201 | Every commit index anywhere goes back to a decision of a leader of a term no later. |
| `ReadSafety.MarksHeldStep` | consensus/basisdb-raft/src/raft/leader.rs:582-602 | Then what a leader commits is held by a majority. |
| `ReadSafety.ConfirmsStep` | consensus/basisdb-raft/src/raft/leader.rs:482-501 | Every step, honest or not, keeps that no term above a confirmed round's had a leader when it was requested, unless the leader had numbered a round alike in an older term. |
| `Invariant.InvStep` | consensus/basisdb-raft/src/raft/mod.rs:390-457 | One protocol step keeps all of these together. |
| `Safety.StepTracks` | basisdb-node/src/runtime.rs:233-249 | One step of a cluster keeps the protocol invariant, the durable copies and the fed machines, and lowers no term. |
| `Safety.StepPersists` | basisdb-node/src/runtime.rs:238-240 | After any step the durable copy equals memory before a message leaves. |
| `Safety.ApplyFeeds` | basisdb-node/src/runtime.rs:251-260 | The apply loop feeds the machine exactly the committed entries not yet applied. |
| `Safety.DeliveryKeepsCommit` | consensus/basisdb-raft/src/raft/follower.rs:198-201 | While every acknowledged log is a prefix of its leader's, no delivery cuts a log below its commit index. |
| `Theorems.ElectionSafety` | consensus/basisdb-raft/src/raft/candidate.rs:158-177 | In every run no term has two leaders, at the same or at different times, across crashes. |
| `Theorems.LogsMatch` | consensus/basisdb-raft/src/raft/follower.rs:165-196 | In every run two logs, of any servers at any times, with the same term at an index are identical through it. |
| `Theorems.LogsOrdered` | consensus/basisdb-raft/src/raft/log.rs:132-147 | In every run logs are numbered from 1 and their terms never decrease nor pass the server's term. |
| `Theorems.LeaderAppendOnly` | consensus/basisdb-raft/src/raft/leader.rs:193-214 | In every run a leader never removes or rewrites an entry of its log. |
| `Theorems.TermsOnlyRise` | consensus/basisdb-raft/src/raft/core.rs:258-276 | In every run the term of a server never falls, crashes included. |
| `Theorems.DurableIsMemory` | basisdb-node/src/runtime.rs:233-249 | In every run, between events, the store holds exactly what is in memory. |
| `Theorems.LeaderCompleteness` | consensus/basisdb-raft/src/raft/follower.rs:128-217 | In every run, what a majority each held while in its term, at whatever times, is in the log of every leader of every later term. |
| `Theorems.StateMachineSafety` | consensus/basisdb-raft/src/raft/mod.rs:370-384 | In every run in which each acknowledged log is a prefix of its leader's, any two servers have been fed prefixes of one sequence, each exactly its committed log. |
| `Theorems.LocallyHonestIsHonest` | consensus/basisdb-raft/src/raft/follower.rs:198-217 | A run is such a run if every log that is acknowledged ends where the request ends or in an entry of the leader's own term, which a server can tell by itself. |
| `ReadTheorems.LeadsBetween` | consensus/basisdb-raft/src/raft/core.rs:258-276 | In every run a server that leads a term at two times has led it all the time between, and its commit index did not fall. |
| `ReadTheorems.ReadLeaders` | consensus/basisdb-raft/src/raft/leader.rs:482-501 | In every run a confirmed round was requested before any later term had a leader, unless this server had numbered a round alike, at the same index, in an older term. |
| `ReadTheorems.ReadIndexSound` | consensus/basisdb-raft/src/raft/leader.rs:128-159 | In honest runs a confirmed round was requested before any later term had a leader, and no server had ever committed past its index. |
| `ReadTheorems.ReadReadyMeans` | consensus/basisdb-raft/src/raft/leader.rs:123-125 | In every run a read that is ready at an index is backed by a round this leader requested in this term, at that index or later, and that was confirmed. |
| `ReadTheorems.ReadReadyIff` | consensus/basisdb-raft/src/raft/leader.rs:123-159 | In every run a requested read is ready iff its own round is confirmed or its leader had requested a round at the same commit index before, in the same term. |
| `ReadTheorems.ReadyCovers` | consensus/basisdb-raft/src/raft/leader.rs:123-159 | In honest runs a ready read covers whatever any server had committed when the round that backs it was requested, which is its own round once that is confirmed. |
| `Divergence.Claim` | consensus/basisdb-raft/src/raft/follower.rs:212-215 | A reachable state in which a follower acknowledges an entry its leader never had. |
| `Divergence.SecondLeader` | consensus/basisdb-raft/src/raft/leader.rs:424-424 | The leader then commits its next command although no other server holds it. |
| `Divergence.StateMachineSafetyFails` | consensus/basisdb-raft/src/raft/follower.rs:198-217 | A run in which two servers apply different first commands, so the hypothesis of honest acknowledgements is needed. |
| `PastEnd.NeverPanics` | consensus/basisdb-raft/src/raft/core.rs:233-235 | In honest runs no server has ever committed past the end of its log, so the assertion behind a proposal never fails. |
| `CommitBound.EventStays` | consensus/basisdb-raft/src/raft/follower.rs:198-201 | An event leaves a commit index that is within its log there iff it cuts nothing below it or names a later one; it does not lower it either iff it cuts nothing below it. |
| `CommitBound.WithinIff` | consensus/basisdb-raft/src/raft/core.rs:233-235 | In every run all commit indices are within their logs at all times iff every request delivered cuts nothing below one or names a later one. |
| `PastEnd.ProposalPanics` | consensus/basisdb-raft/src/raft/core.rs:233-235 | A run in which a server whose log was cut below its commit index is elected, and its first proposal fails the assertion. |
| `StaleRead.ReadyTooEarly` | consensus/basisdb-raft/src/raft/leader.rs:123-159 | An honest run in which a read is ready the moment it is requested, its round unanswered, while the leader of a later term has committed more. |
| `EchoRead.ConfirmedByEcho` | consensus/basisdb-raft/src/raft/follower.rs:320-339 | A run in which a round is confirmed by the answer to a round of an older term, although a leader of a later term existed when it was requested. |
| `ReadRounds.StaleAnswerCounts` | consensus/basisdb-raft/src/raft/follower.rs:320-339 | An answer to a request of an older term is counted by a leader of the newer term with a round of the same numbers. |
| `WalFormat.EncodeRecord` | basisdb-wal/src/format.rs:21-38 | Filling the header buffer field by field gives the encoded record; payloads past 32 bits of length are refused. |
| `WalFormat.ReadExactOrTail` | basisdb-wal/src/format.rs:108-120 | However the bytes arrive, the reader tells a full read, a clean end and a short tail apart. |
| `WalFormat.ReadBack` | basisdb-wal/src/format.rs:40-95 | An encoded record is read back exactly, whatever precedes and follows it. |
| `WalFormat.TornRecord` | basisdb-wal/src/format.rs:40-95 | A record cut anywhere reads as a clean end or an incomplete tail, never as damage. |
| `WalRules.Layout` | basisdb-wal/src/format.rs:21-38 | The bytes of a record: signature, version, kind, length and checksum of the payload, low byte first, zeros, the checksum of these, the payload. |
| `WalRules.WholeIff` | basisdb-wal/src/format.rs:40-95 | A record is read iff its header says so with the right checksum and its payload is there, within the file and the segment. |
| `WalRules.TailIff` | basisdb-wal/src/format.rs:40-95 | The end is read iff the file ends there, a tail iff it ends within the header or within the record that a good header announces. |
| `WalSegment.ValidLen` | basisdb-wal/src/segment.rs:158-176 | The scan in place stops where the records stop. |
| `WalSegment.ScanFrames` | basisdb-wal/src/segment.rs:158-176 | A segment of records and perhaps part of one more is scanned to exactly its last whole record. |
| `WalSegment.StreamFrames` | basisdb-wal/src/segment.rs:63-81 | A clean segment streams exactly the records written, at the offsets written. |
| `WalSegment.ListSegments` | basisdb-wal/src/segment.rs:84-101 | A directory is listed iff its ids run from 0 without a gap; otherwise the first gap is reported. |
| `WalSegment.RecoverDir` | basisdb-wal/src/segment.rs:12-43 | Recovery in place repairs only the last segment. |
| `WalSegment.TotalLen` | basisdb-wal/src/segment.rs:190-196 | The total is the sum of the lengths, refused when it leaves 64 bits. |
| `WalHandle.OpenDir` | basisdb-wal/src/wal.rs:92-117 | Opening validates sizes, lists, repairs and refuses a log past its limit. |
| `WalHandle.Wal.Sync` | basisdb-wal/src/wal.rs:144-151 | A sync makes the active file durable or poisons the handle. |
| `WalHandle.Wal.RotateIfNeeded` | basisdb-wal/src/wal.rs:165-190 | Rotation leaves the records alone and makes room, or says why not. |
| `WalHandle.Wal.WriteOrPoison` | basisdb-wal/src/wal.rs:197-207 | Only the active file changes, by a prefix of the bytes; by all of them iff the write succeeds, and otherwise the handle is poisoned. |
| `WalHandle.Wal.Append` | basisdb-wal/src/wal.rs:120-141 | A success adds exactly the record at the position returned; a refusal that does not poison adds nothing. |
| `WalRules.AppendIff` | basisdb-wal/src/wal.rs:120-141 | An append succeeds iff there is room and nothing that it does fails, and returns the end of the active file or the start of the next. |
| `WalRules.NoRoom` | basisdb-wal/src/wal.rs:120-178 | Without room nothing is touched, and the error says what there is too much of. |
| `WalHandle.Records.Next` | basisdb-wal/src/wal.rs:60-87 | The iterator yields the records in order and stops for good at the end or at the first error. |
| `WalRun.AppendKeeps` | basisdb-wal/src/wal.rs:120-190 | Whatever fails, an append keeps the shape of the log and everything on stable storage, and adds the record or nothing. |
| `WalLog.SizesHold` | basisdb-wal/src/wal.rs:120-190 | Every file stays within the segment size and the total within the limit, on a poisoned handle too; the files hold what is counted plus the rest of a torn write. |
| `WalLog.PositionsAscend` | basisdb-wal/src/wal.rs:120-141 | Stored records lie at strictly increasing positions. |
| `WalRun.LsnsRise` | basisdb-wal/src/wal.rs:120-141 | Between two reopenings the positions returned by appends strictly increase, whatever failed in between. |
| `WalRun.LifeSizes` | basisdb-wal/src/wal.rs:92-190 | In every life, at every moment, the files stay within the segment size and the counted total within the limit. |
| `WalCrash.ReopenExact` | basisdb-wal/src/segment.rs:12-43 | After a crash the active segment is cut to its last whole record; only with an empty segment left behind must the cut fall between records, otherwise the log is refused. |
| `WalRun.RotationRefused` | basisdb-wal/src/wal.rs:165-190 | A life of three appends, one of whose directory syncs fails, after which a crash leaves a log that is refused for an incomplete record. |
| `WalRun.LeftBehind` | basisdb-wal/src/wal.rs:165-190 | The same life when only the process dies: after reopening, a sync that succeeds does not reach the old file, and a power failure takes a record out of the middle without the log being refused. |
| `WalCrash.ReopenedHolds` | basisdb-wal/src/wal.rs:92-117 | The reopened log streams exactly the surviving records at the positions append returned; a file that had to be cut is synced, a clean one is as stable as it was. |
| `WalRun.LifeHolds` | basisdb-wal/src/wal.rs:92-190 | In every life of a log, with any failures and crashes, an append that returns a position puts its record last at that position, and nothing that was on stable storage is lost, altered or moved. |
| `WalRun.SyncedStays` | basisdb-wal/src/wal.rs:144-151 | Whatever happens later, everything that was in the log when all of it was synced stays, in place. |
| `WalRun.StableIff` | basisdb-wal/src/wal.rs:144-151 | A healthy log keeps all of its records in every crash iff all of its active file has been synced. |
| `Store.CommonPrefixLoop` | basisdb-node/src/store.rs:98-105 | The downward loop finds the last index with a common term. |
| `Store.ApplyDeltaLoop` | basisdb-node/src/store.rs:107-127 | The loop applies a delta or names the first thing wrong with it. |
| `StoreRules.DeltaHolds` | basisdb-node/src/store.rs:64-105 | A delta has the new term, vote and configuration, and the new log from behind the last index with a common term. |
| `StoreRules.ApplyIff` | basisdb-node/src/store.rs:107-127 | A delta can be applied iff its term is not behind, it cuts within the log and its entries go on from there; what the result has at each index. |
| `StoreRules.RefusedAs` | basisdb-node/src/store.rs:107-127 | Otherwise the error says the first thing that is wrong. |
| `Store.Rebuilt` | basisdb-node/src/store.rs:64-79 | A delta rebuilds the durable log up to the last common term, then the new one. |
| `Store.ReplayExactIff` | basisdb-node/src/store.rs:98-127 | Applying a saved delta gives the new state iff the term has not gone back and the logs agree below their last common term. |
| `Store.MismatchedReplay` | basisdb-node/src/store.rs:98-105 | Without Log Matching a delta can rebuild another state: a concrete case. |
| `Store.ReplayExact` | basisdb-node/src/store.rs:64-127 | With Log Matching and a rising term it always gives the new state. |
| `StoreRun.SaveDurable` | basisdb-node/src/store.rs:64-82 | After a crash at any byte of a save, whatever failed in it, the reopened store lacks nothing that was on stable storage and has nothing beyond the new state; it has exactly the old state or the new one if it was settled, that is wholly synced, and the new one if the save had returned. |
| `StoreRun.StoreLife` | basisdb-node/src/store.rs:52-95 | In every life of a store, with lost saves and any crashes, the log replays to the durable copy; that, and whatever else a crash may leave, is the last state whose save returned or one that was being saved at a crash since; after a save that returned all of it is on stable storage. |
| `StoreRun.Restarted` | basisdb-node/src/store.rs:52-95 | A crash between saves keeps what is on stable storage; a settled store always reopens, with exactly its durable copy. |
| `StoreRun.LifeReopens` | basisdb-node/src/store.rs:52-95 | If nothing is saved after a failed save until the store is reopened, every crash, at any byte of any save, leaves a store that reopens, with the last state acknowledged or one being saved since; a settled store with its durable copy or the state being saved. |
| `StoreRun.NothingExcluded` | basisdb-wal/src/wal.rs:165-190 | For such a store the crashes considered are all there are: a dying process never leaves unsynced bytes before an empty segment. |
| `StoreRun.SettledEver` | basisdb-node/src/store.rs:52-95 | If every crash takes what is not on stable storage with it, as a power failure does, the store is settled at every moment. |
| `StoreRun.ReadBackLost` | basisdb-wal/src/segment.rs:22-28 | For any state and any encoding: a process that dies between append and sync reads its state back, and a power failure then takes it away. |
| `NodeDurability.RunStatesFollow` | basisdb-node/src/store.rs:64-82 | Any two states of one node in a run can be saved one after the other. |
| `NodeDurability.NodeStoreLife` | basisdb-node/src/store.rs:52-95 | The store of a node in a run, whatever crashes and lost saves it has had, holds a state the node was in, no earlier than the last one whose save returned, and whatever the node hands it next can be saved. |
| `NodeDurability.NodeReopens` | basisdb-node/src/runtime.rs:226-249 | A node that stops at its first failure always reopens its store, with the state being saved, for sure if that save had returned, or with one it was in, no earlier than the last one whose save returned. |
| `NodeDurability.AcknowledgedThenLost` | basisdb-node/src/runtime.rs:238-245 | For any state and any request that it already holds: a node that has read the state back acknowledges the request without a save, and a power failure then takes the state away. |
| `StoreHandle.DeltaStore.Save` | basisdb-node/src/store.rs:64-82 | The save in place: durable moves on only after append and sync. |
| `StoreHandle.DeltaStore.Recover` | basisdb-node/src/store.rs:84-95 | Recovery replays every record, or stops at the first that does not belong, decode or fit. |
| `Runtime.NodeRuntime.HandleEffects` | basisdb-node/src/runtime.rs:233-249 | Nothing is sent before it is saved; when the save fails nothing is sent or applied; when messages leave, what the store holds is on stable storage if it was before or if there was something to save. |
| `Runtime.NodeRuntime.ApplyCommitted` | basisdb-node/src/runtime.rs:251-266 | The loop feeds each committed command once, in order, counts it, and leaves nobody waiting for it; every answer is what applying the caller's own command at its place gave. |
| `Runtime.NextIs` | consensus/basisdb-raft/src/raft/mod.rs:370-384 | What is applied next is the first committed command not yet applied, if there is one. |
| `Runtime.NodeRuntime.CompleteWaiter` | basisdb-node/src/runtime.rs:268-277 | Whoever waits for the index gets the result if the command is the one they proposed, and otherwise word that it is not. |
| `Runtime.NodeRuntime.GiveUp` | basisdb-node/src/runtime.rs:313-322 | A caller that does not wait any longer is forgotten, and nobody else. |
| `Runtime.NodeRuntime.constructor` | basisdb-node/src/runtime.rs:108-127 | Opening the store after a crash gives the machine that the crash step of the cluster gives. |
| `Runtime.NodeRuntime.Tick` | basisdb-node/src/runtime.rs:226-231 | A tick in place moves the machine and sends messages as the step of the cluster does, a leader's heartbeat being sent to exactly the other members; a failed save sends and applies nothing, and afterwards nothing moves; no caller is forgotten. |
| `Runtime.NodeRuntime.Step` | basisdb-node/src/runtime.rs:136-141 | The same for a message that is delivered. |
| `Runtime.NodeRuntime.Propose` | basisdb-node/src/runtime.rs:163-185 | The same for a proposal; one that is refused moves nothing. The command is put at the index returned, which was free, and its caller waits for that index or has been answered. |
| `Replication.ProposalFound` | basisdb-node/src/runtime.rs:171-179 | In every run a proposal puts its command at an index its leader's log did not have, and whoever at any time has an entry of that term there has this one. |
| `Replication.ProposalApplied` | basisdb-node/src/runtime.rs:251-261 | In honest runs what any server applies at a proposal's index, if it is of its term, is its command. |
| `Numbering.EventNumbered` | consensus/basisdb-raft/src/raft/log.rs:131-135 | An event keeps the log numbered without a gap if the request it brings fits, which is what the debug assertion in append demands. |
| `Replication.DeliveriesFit` | consensus/basisdb-raft/src/raft/log.rs:131-135 | In every run every message that is delivered fits, so that debug assertion never fails. |
| `Replication.ReplicasAgree` | basisdb-node/src/runtime.rs:251-266 | In such runs the data of any two replicas, at any times, lies on one line of states; with equally much applied it is equal. |
| `Replication.DataValid` | basisdb-node/src/runtime.rs:262-266 | Whatever bytes are committed, the data of a replica stays well formed. |
| `Kv.ApplyValid` | basisdb-node/src/command.rs:59-222 | Every command keeps sessions consistent, generations distinct and issued, and ETags those of their generations. |
| `Kv.InternalErrorsUnreachable` | basisdb-node/src/command.rs:369-416 | The session-cache errors that call themselves internal cannot happen. |
| `Kv.MutationRemembered` | basisdb-node/src/command.rs:117-142 | A mutation carried out or rejected now is remembered with its answer. |
| `Kv.ExactlyOnce` | basisdb-node/src/command.rs:92-222 | Repeating a remembered request, after anything but a later mutation of the same client, changes nothing and answers the same. |
| `Kv.AtMostOnce` | basisdb-node/src/command.rs:397-416 | When a mutation has changed the state, no later command with its client and sequence does. |
| `Kv.SequencesRise` | basisdb-node/src/command.rs:397-416 | A client's sequence never goes back, and a mutation at or below it has no effect. |
| `KvEtag.EtagInjective` | basisdb-node/src/command.rs:418-421 | Different generations have different ETags. |
| `KvEtag.EtagUsable` | basisdb-node/src/command.rs:338-343 | Every ETag issued is short enough to be sent back. |
| `KvEtag.GenerationsUnique` | basisdb-node/src/command.rs:206-211 | No two writes of a history share a generation or an ETag. |
| `KvEtag.NoAba` | basisdb-node/src/command.rs:352-367 | A conditional command carried out on an ETag acts on the very write that issued it, current at every moment in between. |
| `KvEtag.NeverAgain` | basisdb-node/src/command.rs:352-367 | Once that write is overwritten or deleted, no condition on its ETag is ever met again. |
| `KvMachine.Machine.Apply` | basisdb-node/src/command.rs:59-90 | The machine in place does what the function does, and stays valid. |
| `KvRules.PutIff` | basisdb-node/src/command.rs:92-143 | A put that is well formed and new writes iff a create-only put finds no entry, the ETag asked for is the current one and a generation is left; each refusal under exactly its condition. |
| `KvRules.DeleteIff` | basisdb-node/src/command.rs:145-194 | A delete that is well formed and new is carried out iff the ETag asked for, if any, is the current one; then its own name is gone and no other, and the answer says what was there. |
| `KvRules.NewIsRemembered` | basisdb-node/src/command.rs:117-142 | Whatever becomes of a new mutation is remembered for its client. |
| `KvRules.OldIff` | basisdb-node/src/command.rs:397-416 | A mutation that is not new changes nothing: the last one again gets its old answer, anything else an error that says why. |
| `KvRules.SameRequestIff` | basisdb-node/src/command.rs:397-416 | Two mutations count as the same iff they differ at most in client and number. |
| `KvRules.ImproperIff` | basisdb-node/src/command.rs:315-350 | A malformed command changes nothing and gets the first error that applies to it. |
| `KvRules.OtherCommands` | basisdb-node/src/command.rs:59-90 | Registering takes the next client id for a new session, until the ids run out; a barrier changes nothing. |
| `KvEtag.EtagReads` | basisdb-node/src/command.rs:418-421 | An ETag is `c9-` and the decimal of its generation, quoted, and reads back to it. |
| `KvMachine.Machine.ApplyPut` | basisdb-node/src/command.rs:92-143 | A put that is well formed and new writes iff a create-only put finds no entry, the ETag asked for is the current one and a generation is left; it writes its own name and no other, or nothing. |
| `KvMachine.Machine.ApplyDelete` | basisdb-node/src/command.rs:145-194 | A delete that is well formed and new is carried out iff the ETag asked for, if any, is the current one; then its own name is gone and no other, and the answer says what it removed; generations, client ids and the other sessions stay. |
| `KvMachine.Machine.TakeClientId` | basisdb-node/src/command.rs:196-204 | A client id handed out belongs to no session yet and is never handed out again; at the end of the range nothing changes. |
| `KvMachine.Machine.TakeGeneration` | basisdb-node/src/command.rs:206-211 | A generation handed out is above that of every entry; at the end of the range none is handed out. |
| `Order.LessIff` | basisdb-node/src/command.rs:236-240 | Strings are ordered by the first byte in which they differ, and a prefix comes first. |
| `Browse.Entries` | basisdb-node/src/browse.rs:68-99 | One ordered pass gives the first matches of the filter, and a cursor iff there are more. |
| `Browse.NextMatches` | basisdb-node/src/browse.rs:68-99 | After a page's cursor come exactly the matches it left out. |
| `Browse.PagingIsFiltering` | basisdb-node/src/browse.rs:68-99 | Following cursors ends, and the pages together are the matching keys in order, each once. |
| `Browse.StatePages` | basisdb-node/src/browse.rs:68-99 | From the empty cursor the pages of any valid state list exactly the entries with the namespace and the prefix, in order, each with its ETag, generation and size. |
| `Browse.Namespaces` | basisdb-node/src/browse.rs:40-66 | One ordered pass gives the first namespaces with their counts, and a cursor iff there are more. |
| `Browse.TallyIs` | basisdb-node/src/browse.rs:40-66 | Every namespace after the cursor is listed once, in order, with its exact number of keys. |
| `Browse.SpacePagingIsTallying` | basisdb-node/src/browse.rs:40-66 | Following namespace cursors ends, and the pages together are the whole tally. |
| `Browse.StateSpaces` | basisdb-node/src/browse.rs:40-66 | From the empty cursor the pages of any valid state list exactly the namespaces that have keys, in order, with their numbers. |

## Left out

- Theorems.StateMachineSafety: one direction only, for honest runs; a log acknowledged beyond its leader's need not lead to a divergence, since it may never be counted.
- ReadTheorems.ReadLeaders: one direction only; a round numbered alike in an older term need not be answered late.
- ReadTheorems.ReadIndexSound: for honest runs, because a commit index that no majority holds makes the read index meaningless; `ReadTheorems.ReadLeaders` is the half that holds of every run.
- Runtime.NodeRuntime.Step: for messages that fit, as the debug assertion in append demands; a release build drops it, and on a misnumbered log the apply loop need not end; `Replication.DeliveriesFit` shows that in runs all messages fit.
- WalRun.LifeHolds: a process that dies with an empty segment left behind is taken to have all of the segment before it on stable storage; `WalRun.LeftBehind` is a case in which it has not, and `StoreRun.NothingExcluded` shows that the store of a node, which stops at the failure, has no such case.
- WalRun.SyncedStays: the same.
- StoreRun.StoreLife: the same.
- PastEnd.NeverPanics: one direction only, for honest runs; `CommitBound.WithinIff` is exact, for every run.
- Browse.Namespaces: says nothing of a page refused because a count would leave 64 bits, which needs more rows than that.
- Snapshot transfer: InstallSnapshot messages and responses, which the node refuses to send (basisdb-node/src/runtime.rs:241); the log keeps its snapshot fields and the compaction laws.
- Membership changes in cluster runs, whose voters are fixed; `Reconfigure.ReconfiguredSafely` is about one node and says nothing of what a follower merges.
- The parallel disk write in cluster runs: the node turns it off; the handlers model it.
- Time: ticks, deadlines and the random timeouts become two inputs, whether a deadline has passed and whether a leader was heard recently; nothing is said about progress.
- Integer widths of terms, indices and read round numbers: unbounded; lengths and offsets of the log files, generations, client ids and page counts have their 64 bits.
- Log repair: no claim that rejection hints make next_index converge.
- The checksum and the JSON encoding: any function of the bytes, and any faithful encoder and decoder.
- Files: names, locks, directory creation and permissions; a directory is a map from segment id to bytes and a synced length.
- The atomicity of one event: persisting, sending and applying is one step of the cluster; a crash inside a save is covered by the store, whose lost saves are steps the run never took.
- HTTP transport, signatures, service handlers, locks and timeouts; a caller that times out is a call of `GiveUp`.
- consensus/basisdb-raft-io, basisdb-core, basisdb-storage, the console and the documents under spec.
