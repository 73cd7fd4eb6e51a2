# Verified model of the 6.824/6.5840 systems

This project models four programs of the repository in Dafny 4.11 and proves what they are
for. `dafny verify dfyconfig.toml` checks all of it.

**Raft with log compaction** (`raft1/raft.go`). `RaftNode` gives one server as a value and the
effect of each critical section on it, on the compacted log with its relative indices.
`RaftServer` is the same server as an object that is updated in place, loops included; each of
its methods is proved against the function of `RaftNode`. `Cluster` is the transition system:
any number of servers, a network that loses, delays, reorders and repeats messages, restarts
from disk at any step boundary, compaction, snapshot installation. Beside servers and network it only records what was handed
to services and what Start accepted.
`Consensus` is the protocol on full logs, with the history that the argument needs: the votes,
the log each candidate stood with, what each server acknowledged, and for every term the
ever-growing log of its leader. Seven small steps keep its invariant (`ConsensusProof`), every
handler is a short sequence of them (`Refinement`, `Handlers`), so every run has a full-log
history (`ClusterProof`), and the guarantees of sections 5.2, 5.3, 5.4 and 7 of the extended
Raft paper follow (`RaftSafety`). `RaftProgress` says what servers have to do, beside what they
may not do: the votes they owe, the entries they send, the indices they commit. `Compaction` compares a server with its uncompacted twin,
`FastBackup` bounds the search for the matching point, `Submitted` shows that no command is
invented. Nothing in this part depends on what the service saves as a snapshot: any data may be
passed to Snapshot, at any index that was handed to the service.

The vote counter of an election is sound because a request is sent once per peer and term: a
server keeps the set of peers whose answer is outstanding, and an answer is counted only while
its sender is in that set. All other messages may be delivered any number of times.

**Key/value service.** `KvHistory` lets any number of clerks call one server; a call that fails
was never executed or has finished executing (the simulated network promises this while both
ends stay up). Whether a reply will arrive is decided when the request is executed; every real
schedule is one of these. `KvLock` runs lock clients over that system. `Rsm` is the layer
between Raft and the replicated store on one server, `ReplicatedStore` the cluster with such a
layer on every server: what Raft sends waits in a queue, the service reads it message by message,
saves its own state at the index it has read, and wakes Submit threads. Commands keep their
order; the goroutines that send snapshots may overtake them and each other. `ApplyOrder` says
when what is read is in order and what a read out of order does, `Divergence` shows what can
come of it (`DivergentRuns` holds the runs). `KvRaft` is about the attempts of Puts in one log,
`KvClerks` about clerks over runs of the whole system, and `KvLinear` linearizes all their
operations; `LateStart` is the run behind the one exception (`LateRun` builds it).

**MapReduce.** `MapReduce` says what a job computes, `MrCoordinator` is the coordinator, `MrJob`
the coordinator with any number of workers and their files; a rename is atomic, and a worker
that crashes takes no further step.

**Shard assignment.** `ShardBalance` gives the result of Rebalance as a function of the shard
array and the set of group ids, `ShardConfig` the configuration object.

## What does not hold

- *Replicated stores can differ after an old snapshot.* InstallSnapshot compares the snapshot's
  index with `lastIncludedIndex` only (`raft1/raft.go:721-724`), keeps a larger `lastApplied`
  (`raft1/raft.go:743-745`) and sends the snapshot to the service all the same
  (`raft1/raft.go:759-766`); the service restores it unconditionally (`rsm.go:123-126`). A
  snapshot older than what was handed over takes the store back, and the entries in between are
  not applied again. `Divergence.StoresCanDiffer` is such a run, with every message in order.
  `ApplyOrder.InStepExactly` gives the exact condition: the step installs such a snapshot, and the
  entries that it takes back have an effect.
- *A wrong snapshot can be saved.* The service that was taken back goes on applying entries and
  passes its own state to Snapshot (`rsm.go:118-122`): `Divergence.SnapshotCanBeWrong`. What is
  saved is what a leader sends (`ReplicatedStore.NewInstall`). `ApplyOrder.SavedExactly` gives the
  exact condition, in terms of the message read before. The logs stay safe in all of this, since
  no theorem of `RaftSafety` relies on the content of snapshots.
- *Replicated stores can differ although no snapshot is old.* The goroutine that sends an
  installed snapshot may overtake commands that the applier collected earlier
  (`raft1/raft.go:759-766`, `783-797`), which are then executed a second time, and a Put that
  failed the first time may now succeed: `Divergence.OvertakingDiverges`. `ApplyOrder.ReadExactly`
  gives the exact condition: the message is a command, not the next one, and has another effect
  here than in its own place. `ApplyOrder.FifoInOrder` shows that without these two causes every
  command that is read is the next one, and `ReplicatedStore.InOrderHolds` that stores, snapshots
  and results are then right.
- *ErrNoKey after a retry, in the replicated store.* Late replication or commitment alone never
  turns ErrNoKey into an effect: entries stand in the log in the order of their Starts
  (`RaftSafety.StartsInOrder`). But a Call also fails when its end is disabled or its server is
  deleted while the handler runs (`labrpc/labrpc.go:275-290`), and such a handler may call Start
  after a later attempt was answered. After ErrNoKey only an attempt started after the answered
  one can take effect, and if there is none ErrNoKey means never (`KvClerks.PutOutcomes`); for
  every key and every positive version there is a run in which such an attempt does
  (`LateStart.ErrNoKeyThenApplied`).
- *The linearizability model and ErrNoKey.* The model rejects a Put answered ErrNoKey, which the
  server does give (`models1/kv.go:59-63`, `kvsrv1/server.go:69-71`). `KvHistory.ModelAcceptsServer`
  gives the exact condition; such a Put changes nothing and has no point in a linearization.

## Model

| member | source | states |
|---|---|---|
| `RaftSafety.ElectionSafety` | 6.5840/src/raft1/raft.go:470-528 | no run, with restarts and repeated candidacies, has two leaders of one term, at whatever two moments they are looked at |
| `RaftSafety.FullLogs` | 6.5840/src/raft1/raft.go:115-149 | behind every reachable state stand full logs of which each server keeps the upper part; they match wherever two agree on a term at an index, their terms never decrease, and every term starts at one index on all servers |
| `RaftSafety.CommittedNeverDiffers` | 6.5840/src/raft1/raft.go:418-438 | state machine safety on full logs: two committed prefixes of equal length are equal, also between different servers and different moments |
| `RaftSafety.RetainedNeverDiffers` | 6.5840/src/raft1/raft.go:688-698 | the same for the entries the servers still keep in their compacted logs |
| `RaftSafety.StateMachineSafety` | 6.5840/src/raft1/raft.go:783-797 | no two servers ever hand different commands to their services at one index |
| `RaftSafety.LaterLeadersHaveIt` | 6.5840/src/raft1/raft.go:193-213 | leader completeness: whatever a server had committed in some term is in the log of every leader of a later term, whichever of the two moments comes first |
| `RaftSafety.IndexInvariant` | 6.5840/src/raft1/raft.go:123-138 | lastIncludedIndex <= lastApplied <= commitIndex <= last log index, the sentinel carries lastIncludedTerm, a leader's nextIndex lies in 1..last+1, and every step a server can take indexes its log in range |
| `RaftSafety.CrashTransparency` | 6.5840/src/raft1/raft.go:801-826 | at every step boundary the persisted image holds the term, vote, log and snapshot base that are in memory, so a restart loses none of them |
| `RaftSafety.MatchIndexTruthful` | 6.5840/src/raft1/raft.go:384-390 | a peer still in the leader's term agrees with the leader's log through matchIndex |
| `RaftSafety.OnlyCrashLowersCommit` | 6.5840/src/raft1/raft.go:342-345 | no step lowers a term, only a restart lowers commitIndex or lastApplied (a stale reply that lowers matchIndex does not), and a vote stands while the term stands |
| `RaftSafety.StartPlaces` | 6.5840/src/raft1/raft.go:265-288 | the index and term that Start reports name the command: no log, on any server at any later moment, has another command of that term at that index |
| `RaftSafety.TermStart` | 6.5840/src/raft1/raft.go:265-281 | the entries of a term begin right above the log its leader was elected with, in every log that has any |
| `RaftSafety.StartsInOrder` | 6.5840/src/raft1/raft.go:265-288 | entries stand in every log in the order in which they were started, however late they are replicated and committed |
| `RaftSafety.EntriesWereStarted` | 6.5840/src/raft1/raft.go:265-288 | every entry of a full log was placed by a Start that reported its index and term |
| `RaftSafety.StartedSomewhere` | 6.5840/src/raft1/raft.go:265-288 | and that Start is an earlier event of the run |
| `RaftSafety.CommittedLogExists` | 6.5840/src/raft1/raft.go:418-438 | at every moment there is one committed log, of which every committed prefix is a prefix |
| `RaftProgress.VoteExactly` | 6.5840/src/raft1/raft.go:169-218 | in every reachable state a vote is given, and is on disk, if and only if the term is not older, the vote is free or the candidate's already, and the full log the candidate stood with ends in a later term, or in the same term and is not shorter than the voter's |
| `RaftProgress.VoteIsGiven` | 6.5840/src/raft1/raft.go:193-213 | a candidate of a later term whose full log extends the voter's is never refused |
| `RaftProgress.AsksEveryone` | 6.5840/src/raft1/raft.go:470-491 | a server that stands asks every other server, with its new term and the end of its full log |
| `RaftProgress.MajorityElects` | 6.5840/src/raft1/raft.go:494-525 | granted votes of peers make a candidate leader if and only if with its own they are a majority, and there is at least one: a single server never leads; a new leader starts right above its log for every peer |
| `RaftProgress.StartExactly` | 6.5840/src/raft1/raft.go:265-288 | a leader accepts a command at the end of its full log, on disk; another server refuses and changes nothing |
| `RaftProgress.SendsAll` | 6.5840/src/raft1/raft.go:307-364 | a leader sends its whole full log from nextIndex on with its commit index, and its snapshot if and only if the first of these entries is compacted |
| `RaftProgress.CommitsAll` | 6.5840/src/raft1/raft.go:384-438 | after a success reply matchIndex and nextIndex are those of the request, every entry of the current term that a majority holds is committed, and no other index is |
| `RaftProgress.AppliesAll` | 6.5840/src/raft1/raft.go:783-797 | one round of the applier hands over every committed entry of the full log |
| `RaftProgress.SnapshotExactly` | 6.5840/src/raft1/raft.go:115-149 | Snapshot keeps exactly what lies above its index and saves the data; at or below the base it does nothing |
| `RaftProgress.InstallRecorded` | 6.5840/src/raft1/raft.go:342-345 | a follower that acknowledges a snapshot is counted up to it and sent what comes next |
| `RaftProgress.LaterTermAdopted` | 6.5840/src/raft1/raft.go:183-188 | a later term is adopted from every message that is not stale and ends a reign or a candidacy; a stale reply changes nothing |
| `RaftProgress.EarlierTermRefused` | 6.5840/src/raft1/raft.go:176-181 | a request of an earlier term is refused with the later term and changes nothing |
| `Consensus.LeaderCompleteness` | 6.5840/src/raft1/raft.go:420-435 | a prefix counted on a majority in its own term is in the log of every later leader |
| `Consensus.CommittedNotBlocked` | 6.5840/src/raft1/raft.go:426-436 | a majority that acknowledged a prefix excludes a majority that left the term without it |
| `Consensus.CommittedAgree` | 6.5840/src/raft1/raft.go:688-698 | of two committed prefixes one extends the other |
| `Consensus.LogMatching` | 6.5840/src/raft1/raft.go:651-664 | logs that agree on the term at an index agree on everything up to it |
| `Consensus.TermsOrdered` | 6.5840/src/raft1/raft.go:265-281 | terms never decrease along a log |
| `ConsensusProof.StandKeeps` | 6.5840/src/raft1/raft.go:470-479 | standing for election keeps the protocol invariant |
| `ConsensusProof.BumpKeeps` | 6.5840/src/raft1/raft.go:183-188 | adopting a higher term keeps it |
| `ConsensusProof.UpToDateKeeps` | 6.5840/src/raft1/raft.go:193-206 | a candidate at least as up to date as a voter holds all the voter holds that may still be committed |
| `ConsensusProof.GrantKeeps` | 6.5840/src/raft1/raft.go:208-217 | granting a vote keeps the invariant |
| `ConsensusProof.ElectHanded` | 6.5840/src/raft1/raft.go:510-523 | a new leader holds everything of earlier terms that may still be committed |
| `ConsensusProof.ElectKeeps` | 6.5840/src/raft1/raft.go:510-523 | becoming leader keeps the invariant |
| `ConsensusProof.AppendKeeps` | 6.5840/src/raft1/raft.go:273-281 | a leader's append keeps it |
| `ConsensusProof.LateEntriesBlocked` | 6.5840/src/raft1/raft.go:420-424 | what an old leader appends after a later one was elected can never be committed |
| `ConsensusProof.AdoptKeeps` | 6.5840/src/raft1/raft.go:666-684 | a follower that adopts a prefix of its leader's log keeps it |
| `ConsensusProof.AdoptCommitOk` | 6.5840/src/raft1/raft.go:666-684 | adopting never drops a committed entry |
| `ConsensusProof.AdvanceKeeps` | 6.5840/src/raft1/raft.go:688-698 | moving the commit index within what is committed keeps it |
| `Refinement.SpliceTrim` | 6.5840/src/raft1/raft.go:666-681 | the append loop on a compacted log is the compacted result of the loop on the full log |
| `Refinement.SpliceAdopts` | 6.5840/src/raft1/raft.go:666-681 | the append loop keeps a log that already holds the leader's entries and otherwise yields the leader's prefix |
| `Refinement.DropAdopts` | 6.5840/src/raft1/raft.go:726-735 | installing a snapshot keeps a log that extends it and otherwise restarts from it, as adopting the leader's prefix does |
| `Refinement.OtherKeeps` | 6.5840/src/raft1/raft.go:63-93 | a step of one server leaves every other server's relation to the history intact |
| `Handlers.StepDownRefines` | 6.5840/src/raft1/raft.go:183-188 | stepping down follows the protocol |
| `Handlers.RecogniseRefines` | 6.5840/src/raft1/raft.go:622-630 | recognising a leader's term follows the protocol |
| `Handlers.TimeoutRefines` | 6.5840/src/raft1/raft.go:470-491 | startElection follows the protocol and its request describes the candidate's log |
| `Handlers.VoteReqRefines` | 6.5840/src/raft1/raft.go:169-218 | RequestVote follows the protocol; a granted reply records a vote |
| `Handlers.WinnerIsFirst` | 6.5840/src/raft1/raft.go:511-513 | a candidate with a majority of votes is the only possible leader of its term |
| `Handlers.TallyRefines` | 6.5840/src/raft1/raft.go:481-511 | the vote counter never exceeds the number of peers that voted for the candidate, since each outstanding request is answered once |
| `Handlers.ElectRefines` | 6.5840/src/raft1/raft.go:512-520 | crossing the majority makes a leader of the protocol |
| `Handlers.VoteRepRefines` | 6.5840/src/raft1/raft.go:494-525 | handling a vote reply follows the protocol |
| `Handlers.SubmitRefines` | 6.5840/src/raft1/raft.go:265-288 | Start follows the protocol and places exactly one entry, at the index and term it reports |
| `Handlers.ReplicateOk` | 6.5840/src/raft1/raft.go:307-364 | what a leader sends is a truthful excerpt of its log or its committed snapshot, and nextIndex is in range |
| `Handlers.CommitRefines` | 6.5840/src/raft1/raft.go:418-438 | counting matchIndex over a majority commits in the protocol |
| `Handlers.AppendRepRefines` | 6.5840/src/raft1/raft.go:367-414 | handling an AppendEntries reply follows the protocol |
| `Handlers.InstallRepRefines` | 6.5840/src/raft1/raft.go:325-346 | handling an InstallSnapshot reply follows the protocol |
| `Handlers.RejectInRange` | 6.5840/src/raft1/raft.go:635-664 | the index a rejection points to lies in the leader's log |
| `Handlers.AppendReqRefines` | 6.5840/src/raft1/raft.go:611-699 | AppendEntries follows the protocol and its reply is truthful |
| `Handlers.InstallReqRefines` | 6.5840/src/raft1/raft.go:701-757 | InstallSnapshot follows the protocol, and a reply in the leader's term acknowledges the snapshot |
| `Handlers.CompactRefines` | 6.5840/src/raft1/raft.go:115-149 | Snapshot, with whatever data, changes nothing but what is kept |
| `Handlers.CrashRefines` | 6.5840/src/raft1/raft.go:577-581 | a restart from disk follows the protocol |
| `ClusterProof.NoPanic` | 6.5840/src/raft1/raft.go:350-355 | no enabled step of a reachable state indexes out of range |
| `ClusterProof.StepFollows` | 6.5840/src/raft1/raft.go:63-93 | every critical section of the cluster is matched by protocol steps that only extend the history |
| `ClusterProof.HistoryExists` | 6.5840/src/raft1/raft.go:63-93 | every run of the cluster, over a network that loses, delays, reorders and repeats messages, has such a history |
| `Compaction.VoteTwin` | 6.5840/src/raft1/raft.go:193-217 | a compacted server votes like one that kept its whole log |
| `Compaction.ElectionTwin` | 6.5840/src/raft1/raft.go:470-520 | and stands for election and counts votes like it |
| `Compaction.StartTwin` | 6.5840/src/raft1/raft.go:265-288 | and gives new commands the same index and term |
| `Compaction.ReplicateTwin` | 6.5840/src/raft1/raft.go:350-364 | and sends the same entries, unless it has compacted them |
| `Compaction.AppendVerdictTwin` | 6.5840/src/raft1/raft.go:635-664 | and gives the same verdict on entries at or above its base, with the conflict index cut off at the base |
| `Compaction.AppendTwin` | 6.5840/src/raft1/raft.go:666-698 | and ends with the same log and commit index |
| `Compaction.AppendBelowBase` | 6.5840/src/raft1/raft.go:635-641 | a request below the base is turned down with a hint, and the retry that the hint causes makes the server a twin again of one that kept everything and took the first request |
| `Compaction.AppendInsideBase` | 6.5840/src/raft1/raft.go:635-641 | a request that also ends at or below the base changes nothing for the server or its twin |
| `Compaction.InstallTwin` | 6.5840/src/raft1/raft.go:721-757 | after a snapshot above the base a compacted server and its twin are in one state |
| `Compaction.InstallBelowBase` | 6.5840/src/raft1/raft.go:721-735 | a snapshot at or below the base is nothing for a compacted server, and for its twin what a snapshot of its own is |
| `Compaction.CommitScanTwin` | 6.5840/src/raft1/raft.go:418-438 | the commit rule gives the same index |
| `Compaction.AppendReplyTwin` | 6.5840/src/raft1/raft.go:384-412 | a compacted leader reacts alike, and follows the hint exactly where the deciding entry was compacted |
| `Compaction.SnapshotTwin` | 6.5840/src/raft1/raft.go:115-138 | taking a snapshot is invisible |
| `Compaction.BatchTwin` | 6.5840/src/raft1/raft.go:783-791 | and the same commands are handed over |
| `FastBackup.RejectLowers` | 6.5840/src/raft1/raft.go:391-412 | each rejection above the follower's base strictly lowers nextIndex, never below that base |
| `FastBackup.ConflictTermEarlier` | 6.5840/src/raft1/raft.go:398-411 | the leader's last entry of the conflict term lies strictly before the request and not below the follower's base |
| `FastBackup.JumpUp` | 6.5840/src/raft1/raft.go:635-641 | below the follower's base one jump up is followed by success |
| `FastBackup.AfterInstall` | 6.5840/src/raft1/raft.go:314-346 | after a snapshot at most one more exchange fails |
| `FastBackup.FirstContact` | 6.5840/src/raft1/raft.go:622-630 | a server of an earlier term, or a candidate, answers like one that already follows the leader |
| `FastBackup.BackupTerminates` | 6.5840/src/raft1/raft.go:391-412 | in every reachable state, a leader and a server whose term is not later, exchanging fresh replies, agree after at most nextIndex + 1 failed exchanges |
| `FastBackup.BackupExactly` | 6.5840/src/raft1/raft.go:398-411 | after a rejection with a term of which the leader keeps an entry, it retries exactly where the two full logs part: they agree up to there and differ right above |
| `FastBackup.BackupToHint` | 6.5840/src/raft1/raft.go:391-412 | otherwise right above the end of a shorter log, or at the start of the conflict term as far as the follower keeps it |
| `FastBackup.ExchangeDelivers` | 6.5840/src/raft1/raft.go:666-698 | once the follower accepts, it holds the leader's whole full log and all its commit index covers, and matchIndex says so |
| `RaftNode.CommitScan` | 6.5840/src/raft1/raft.go:418-438 | a new commit index is an entry of the current term held by a majority (that all such are committed is `RaftProgress.CommitsAll`) |
| `RaftNode.LastOfTerm` | 6.5840/src/raft1/raft.go:400-406 | the highest kept position of a term, or none |
| `RaftNode.RunStart` | 6.5840/src/raft1/raft.go:657-662 | the first position of the run of equal terms that ends at the request |
| `RaftServer.Raft.Make` | 6.5840/src/raft1/raft.go:555-589 | a server starts with what was persisted and with commitIndex and lastApplied at its snapshot |
| `RaftServer.Raft.StartElection` | 6.5840/src/raft1/raft.go:470-491 | updates the server in place as the model of startElection says |
| `RaftServer.Raft.RequestVote` | 6.5840/src/raft1/raft.go:169-218 | updates the server and replies as the model of RequestVote says |
| `RaftServer.Raft.OnVoteReply` | 6.5840/src/raft1/raft.go:494-525 | counts a vote and, on a majority, resets the per-peer indices |
| `RaftServer.Raft.Start` | 6.5840/src/raft1/raft.go:265-288 | appends, persists and reports index and term |
| `RaftServer.Raft.SendTo` | 6.5840/src/raft1/raft.go:307-364 | builds the request the model says |
| `RaftServer.Raft.CountReplicas` | 6.5840/src/raft1/raft.go:426-431 | the counting loop gives the number of servers that hold the index |
| `RaftServer.Raft.UpdateCommitIndex` | 6.5840/src/raft1/raft.go:418-438 | the downward loop finds the index of the commit rule |
| `RaftServer.Raft.FindLastOfTerm` | 6.5840/src/raft1/raft.go:398-406 | the downward scan finds the last kept entry of a term |
| `RaftServer.Raft.OnAppendReply` | 6.5840/src/raft1/raft.go:367-414 | updates matchIndex, nextIndex and commitIndex as the model says |
| `RaftServer.Raft.OnSnapshotReply` | 6.5840/src/raft1/raft.go:325-346 | updates matchIndex and nextIndex as the model says |
| `RaftServer.Raft.FindRunStart` | 6.5840/src/raft1/raft.go:657-662 | the downward loop finds the start of the run of the conflict term |
| `RaftServer.Raft.AppendNew` | 6.5840/src/raft1/raft.go:666-681 | the append loop yields the spliced log and reports whether the log changed |
| `RaftServer.Raft.AppendEntries` | 6.5840/src/raft1/raft.go:611-699 | updates the server and replies as the model of AppendEntries says |
| `RaftServer.Raft.InstallSnapshot` | 6.5840/src/raft1/raft.go:701-757 | updates the server and replies as the model of InstallSnapshot says |
| `RaftServer.Raft.Snapshot` | 6.5840/src/raft1/raft.go:115-149 | compacts in place as the model of Snapshot says |
| `RaftServer.Raft.CollectCommitted` | 6.5840/src/raft1/raft.go:783-792 | hands over exactly the entries between lastApplied and commitIndex |
| `Submitted.OnlySubmitted` | 6.5840/src/raft1/raft.go:265-281 | every command that is handed to a service was passed to Start before |
| `Submitted.StepAll` | 6.5840/src/raft1/raft.go:63-93 | whatever holds of all submitted commands holds of those in logs, on disk, in requests and handed over, after every step |
| `ReplicatedStore.InOrderHolds` | 6.5840/src/kvraft1/rsm/rsm.go:90-127 | in every run in which each command read is the next one, every store is the replay of its server's full log up to the index read, and every snapshot saved, sent or on its way to a service is the replay of the prefix it stands for, through compaction, installation and restarts |
| `ReplicatedStore.StoresAgree` | 6.5840/src/kvraft1/rsm/rsm.go:90-127 | in such runs services that have read up to one index hold equal stores, at whatever moments they are compared |
| `ReplicatedStore.SubmitReturnsOwnReply` | 6.5840/src/kvraft1/rsm/rsm.go:142-195 | in such runs Submit that returns OK returns what its own operation answers at its own index of the cluster's log, whoever overwrote or removed registrations |
| `ReplicatedStore.CompactHeld` | 6.5840/src/kvraft1/rsm/rsm.go:118-122 | the state that a service in step passes to Snapshot is the replay of what the snapshot stands for |
| `ReplicatedStore.InstallHeld` | 6.5840/src/raft1/raft.go:721-766 | a true snapshot that is installed is true of the follower's own log, older or not |
| `ReplicatedStore.CrashHeld` | 6.5840/src/kvraft1/rsm/rsm.go:74-78 | a service that restarts from the saved snapshot is in step |
| `ReplicatedStore.ApplyHeld` | 6.5840/src/raft1/raft.go:783-797 | the commands of a batch are those of the full log at their indices |
| `ReplicatedStore.NewInstall` | 6.5840/src/raft1/raft.go:314-324 | snapshots are sent by leaders only, and each is the one saved |
| `ApplyOrder.FifoInOrder` | 6.5840/src/raft1/raft.go:759-797 | if messages arrive in the order sent, and no server installs a snapshot older than what it handed over, every command read is the next one |
| `ApplyOrder.InStepExactly` | 6.5840/src/raft1/raft.go:721-766 | after any step of Raft from such a run, a service that reads all it was sent holds the replay up to lastApplied if and only if the step did not install a snapshot older than lastApplied, or the entries this takes back change nothing |
| `ApplyOrder.RolledBack` | 6.5840/src/kvraft1/rsm/rsm.go:123-126 | and then it holds the replay up to that snapshot's index |
| `ApplyOrder.ReadExactly` | 6.5840/src/kvraft1/rsm/rsm.go:90-127 | the store of a service in step stays the replay up to the index read if and only if the message is a snapshot, the next command, or a command with the effect here that it has in its own place |
| `ApplyOrder.SavedExactly` | 6.5840/src/kvraft1/rsm/rsm.go:118-122 | the snapshot saved after a read is right if and only if that holds, or Raft has a later snapshot already |
| `ApplyOrder.ServiceMaySave` | 6.5840/src/kvraft1/rsm/rsm.go:118-122 | in every run, orderly or not, Raft can take the snapshot a service saves at the index it has read |
| `ApplyOrder.ClusterRun` | 6.5840/src/kvraft1/rsm/rsm.go:72-87 | what Raft does in a run with services is a run of the cluster, so all of `RaftSafety` applies |
| `Divergence.StoresCanDiffer` | 6.5840/src/raft1/raft.go:740-766 | a run with all messages in order after which two servers have applied the same entries and their stores differ, because a late reply made the leader send an older snapshot |
| `Divergence.SnapshotCanBeWrong` | 6.5840/src/kvraft1/rsm/rsm.go:118-122 | that run continued: the service that was taken back saves a snapshot that differs from the other service's store at the same index |
| `Divergence.OvertakingDiverges` | 6.5840/src/raft1/raft.go:759-766 | a run without older snapshots after which the stores differ, because an installed snapshot overtook commands |
| `KvHistory.Linearizable` | 6.5840/src/kvsrv1/client.go:31-85 | every interleaving of any number of clerks over lossy calls has a linearization: one point per operation inside its interval, with its own result, accepted by the model for every key, a Get reporting ErrNoKey exactly when no Put of its key has succeeded before; a Put answered ErrNoKey has no point |
| `KvHistory.PutOutcomes` | 6.5840/src/kvsrv1/client.go:62-85 | OK means applied exactly once, ErrVersion and ErrNoKey never, ErrMaybe at most once and only after a resend; nothing else is returned |
| `KvHistory.ReturnReports` | 6.5840/src/kvsrv1/client.go:62-85 | the clerk hands on the server's answer, except that ErrVersion on a resend becomes ErrMaybe |
| `KvHistory.VersionsCountPuts` | 6.5840/src/kvsrv1/server.go:57-85 | a key's version is its number of successful Puts, and no two Puts of one key and version both succeed |
| `KvHistory.ModelAcceptsServer` | 6.5840/src/models1/kv.go:49-66 | the model accepts what the server answers exactly when the request is not a Put of a positive version to a missing key, and follows the store in any case |
| `KvHistory.ExecuteModels` | 6.5840/src/models1/kv.go:49-66 | the model's step accepts the server's answer, or ErrMaybe in its place, and leads to the store's new state |
| `KvLock.MutualExclusion` | 6.5840/src/kvsrv1/lock/lock.go:25-76 | never are two clients between a returned Acquire and their Release, and the server names the one that is |
| `KvLock.Released` | 6.5840/src/kvsrv1/lock/lock.go:60-76 | a client outside Acquire and Release is never the one the server names: a Release that returned has freed the lock |
| `KvLock.AcquireTakes` | 6.5840/src/kvsrv1/lock/lock.go:25-58 | from every reachable state in which the lock is free, a client can take it |
| `KvLock.AcquireRecovers` | 6.5840/src/kvsrv1/lock/lock.go:33-39 | an Acquire whose Put took effect although the reply was lost can find out and return |
| `KvLock.ReleaseFrees` | 6.5840/src/kvsrv1/lock/lock.go:60-76 | from every reachable state a client that holds the lock can free it |
| `KvLock.Handover` | 6.5840/src/kvsrv1/lock/lock.go:60-76 | the lock's value changes only from free to a client inside Acquire, or from a client inside Release to free: no late or repeated Release frees another client's lock |
| `KvServer.KVServer.Get` | 6.5840/src/kvsrv1/server.go:41-54 | answers from the store as the model of one operation says |
| `KvServer.KVServer.Put` | 6.5840/src/kvsrv1/server.go:57-85 | updates the store in place as the model of one operation says |
| `KvServer.Clerk.Put` | 6.5840/src/kvraft1/client.go:48-76 | the retry loop stops at the first answer that is not a retry, turns ErrVersion into ErrMaybe exactly after an earlier call, and asks the servers in turn |
| `KvRaft.AtMostOneSucceeds` | 6.5840/src/kvraft1/server.go:48-72 | in any log at most one of all Puts of one key and version succeeds |
| `KvClerks.PutOutcomes` | 6.5840/src/kvraft1/client.go:48-76 | over all orderly runs, however late attempts are committed: OK means exactly one took effect, ErrVersion none, ErrMaybe at most one; after ErrNoKey only an attempt started after the answered one can take effect, and none if there is no such attempt |
| `KvClerks.AnswerInLog` | 6.5840/src/kvraft1/rsm/rsm.go:142-195 | an answer is that of the attempt's own entry in the committed log, which was started before the answer |
| `KvClerks.InStartOrder` | 6.5840/src/kvraft1/rsm/rsm.go:142-162 | attempts of all clerks stand in the committed log in the order of their Starts |
| `KvLinear.Linearizable` | 6.5840/src/kvraft1/client.go:29-76 | in every orderly run, whatever is lost, committed late, compacted or restarted, the operations of all clerks have a linearization: one point per answered operation with its own result, in the order of the committed log and in real-time order, accepted by the model for every key and ending in the store of the committed log; a Put answered ErrNoKey has no point |
| `KvLinear.RealTime` | 6.5840/src/kvraft1/client.go:29-76 | an operation that was answered before another was invoked has the earlier entry |
| `LateStart.ErrNoKeyThenApplied` | 6.5840/src/kvraft1/client.go:57-75 | for every key, value and positive version, an orderly run in which a Put reports ErrNoKey and takes effect, its answered attempt being started first |
| `KvRaft.PutOutcomes` | 6.5840/src/kvraft1/server.go:48-72 | in any log with any attempts of one Put: OK means exactly one succeeds, ErrVersion none, ErrMaybe at most one, and after ErrNoKey only a later place can succeed |
| `KvRaft.LateAttempt` | 6.5840/src/kvraft1/server.go:48-72 | the log of that run: the retry finds no key, the other attempt finds its version |
| `Rsm.MessageInStep` | 6.5840/src/kvraft1/rsm/rsm.go:90-127 | reading a true message keeps store, position and notifications true, provided a command is the next one |
| `Rsm.PollInStep` | 6.5840/src/kvraft1/rsm/rsm.go:168-194 | so does a turn of a waiting thread |
| `Rsm.WokenByOwn` | 6.5840/src/kvraft1/rsm/rsm.go:92-116 | a thread registered at the index at which its own operation is executed gets that execution's result |
| `Rsm.AnswersItsSubmit` | 6.5840/src/kvraft1/rsm/rsm.go:163-182 | a Submit whose operation is executed at its index before anyone else registers there returns the result |
| `Rsm.PollExactly` | 6.5840/src/kvraft1/rsm/rsm.go:168-194 | a thread returns OK if and only if it was notified of its own operation in its own term, waits if and only if its channel is empty and its server leads, and frees its index whenever it returns |
| `Rsm.CloseWakes` | 6.5840/src/kvraft1/rsm/rsm.go:129-136 | closing sends away exactly the registered threads |
| `ReplicatedStore.SubmitWaits` | 6.5840/src/kvraft1/rsm/rsm.go:185-193 | without a notification a thread waits if and only if its server leads in the term of its Start |
| `Rsm.InStepGrows` | 6.5840/src/kvraft1/rsm/rsm.go:90-127 | and so does a longer log |
| `RaftLog.ReplaySplit` | 6.5840/src/kvraft1/server.go:78-105 | restoring a snapshot and replaying the rest is replaying everything |
| `RsmServer.Server.DoOp` | 6.5840/src/kvraft1/server.go:31-76 | executes one request on the store in place |
| `RsmServer.Server.ReadMessage` | 6.5840/src/kvraft1/rsm/rsm.go:92-127 | one turn of the reader: executes a command and wakes the thread registered at its index, or restores a snapshot; what it saves afterwards is its own state at that index |
| `RsmServer.Server.RegisterAt` | 6.5840/src/kvraft1/rsm/rsm.go:163-166 | registers a fresh channel, replacing any other at the index |
| `RsmServer.Server.PollOnce` | 6.5840/src/kvraft1/rsm/rsm.go:168-194 | one turn of the waiting loop, with the removal on leaving |
| `RsmServer.Server.CloseRegistered` | 6.5840/src/kvraft1/rsm/rsm.go:129-136 | closes exactly the registered channels |
| `MrJob.EndToEnd` | 6.5840/src/mr/coordinator.go:36-137 | for every schedule of timeouts, crashes, lost replies, repeated work and late finishes, in the exit phase all output files exist and together hold exactly the sequential program's multiset of lines |
| `MrFinish.JobCanFinish` | 6.5840/src/mr/coordinator.go:36-110 | for every job some run reaches the exit phase |
| `MrJob.KeyInOneFile` | 6.5840/src/mr/worker.go:77-81 | in the exit phase of every run each output file holds the lines of exactly the keys whose hash names it, each made from all values of the key |
| `MrJob.RunKeeps` | 6.5840/src/mr/worker.go:64-168 | in every run an intermediate or output file is absent or complete and right, and a completed map has all its files |
| `MrJob.ReadBucketKeeps` | 6.5840/src/mr/worker.go:111-130 | a reducer never misses an intermediate file |
| `MrJob.FillBuckets` | 6.5840/src/mr/worker.go:77-81 | the bucket loop puts each pair into the bucket of its key, in order |
| `MrJob.Sequential` | 6.5840/src/main/mrsequential.go:38-84 | the sequential program writes one line per key, from all values of the key |
| `MapReduce.ReduceGroups` | 6.5840/src/mr/worker.go:139-154 | the group scan reduces each run of equal keys |
| `MapReduce.LinesPerKey` | 6.5840/src/mr/worker.go:139-154 | on sorted pairs that is exactly one line per key |
| `MapReduce.SortedLines` | 6.5840/src/main/mrsequential.go:59-84 | whatever the sort does with equal keys, the multiset of lines is the same |
| `MapReduce.LineReadsBack` | 6.5840/src/mr/worker.go:139-154 | key and output can be read back from a line, if keys have no spaces |
| `MrCoordinator.AnswerMeans` | 6.5840/src/mr/coordinator.go:36-97 | what each answer of GetTask tells about map and reduce work and the phase |
| `MrCoordinator.TakenBackExactly` | 6.5840/src/mr/coordinator.go:112-137 | work is taken back by a check if and only if more than ten seconds have passed since it was handed out; nothing else is touched |
| `MrCoordinator.FinishExactly` | 6.5840/src/mr/coordinator.go:99-110 | a report counts in its own phase for its own entry, a late one not at all |
| `MrCoordinator.FirstIdle` | 6.5840/src/mr/coordinator.go:42-46 | the scan finds the first idle entry |
| `MrCoordinator.CoordinatorServer.constructor` | 6.5840/src/mr/coordinator.go:171-191 | all entries start idle, in the map phase |
| `MrCoordinator.CoordinatorServer.Scan` | 6.5840/src/mr/coordinator.go:41-57 | marks the first idle entry in place and reports whether all are completed |
| `MrCoordinator.CoordinatorServer.Assign` | 6.5840/src/mr/coordinator.go:36-97 | answers and changes phase as the model of GetTask says |
| `MrCoordinator.CoordinatorServer.MapFinished` | 6.5840/src/mr/coordinator.go:99-105 | completes a map only in the map phase |
| `MrCoordinator.CoordinatorServer.ReduceFinished` | 6.5840/src/mr/coordinator.go:105-107 | completes a reduce only in the reduce phase |
| `MrCoordinator.CoordinatorServer.Tick` | 6.5840/src/mr/coordinator.go:112-137 | takes back exactly the entries in progress for more than ten seconds |
| `ShardBalance.RebalancedIsBalanced` | 6.5840/src/shardkv1/shardcfg/shardcfg.go:122-154 | for every group set and every starting assignment all shards end on existing groups and group sizes differ by at most one; without groups all shards are unassigned |
| `ShardBalance.MoveDecreases` | 6.5840/src/shardkv1/shardcfg/shardcfg.go:140-153 | the sum of squared counts falls on every move |
| `ShardBalance.RebalanceIdempotent` | 6.5840/src/shardkv1/shardcfg/shardcfg.go:122-154 | rebalancing twice is rebalancing once |
| `ShardBalance.JoinMovesOnlyToJoiners` | 6.5840/src/shardkv1/shardcfg/shardcfg.go:207-213 | from a balanced, fully assigned configuration only joining groups receive shards |
| `ShardBalance.LeaveMovesOnlyDeparted` | 6.5840/src/shardkv1/shardcfg/shardcfg.go:215-221 | when groups leave one and some group stays, only their shards move |
| `ShardConfig.Analyze` | 6.5840/src/shardkv1/shardcfg/shardcfg.go:80-111 | finds the most and least loaded group with ties to the smallest id, whatever order the map yields |
| `ShardConfig.CountShards` | 6.5840/src/shardkv1/shardcfg/shardcfg.go:81-84 | counts the shards of every group |
| `ShardConfig.SortedGids` | 6.5840/src/shardkv1/shardcfg/shardcfg.go:92-98 | all group ids, ascending |
| `ShardConfig.Config.Rebalance` | 6.5840/src/shardkv1/shardcfg/shardcfg.go:122-154 | terminates, and the array becomes a function of its old contents and the set of group ids alone |
| `ShardConfig.Config.AssignUnassigned` | 6.5840/src/shardkv1/shardcfg/shardcfg.go:131-138 | the first loop, as a function of array and ids |
| `ShardConfig.Config.EvenOut` | 6.5840/src/shardkv1/shardcfg/shardcfg.go:140-153 | the second loop, as a function of array and ids |
| `ShardConfig.Config.MoveOne` | 6.5840/src/shardkv1/shardcfg/shardcfg.go:146-152 | moves the first shard of a group |
| `ShardConfig.Config.Join` | 6.5840/src/shardkv1/shardcfg/shardcfg.go:156-183 | succeeds exactly when something joins, no id is in use and no joining server is in another group; then adds all of it |
| `ShardConfig.Config.Leave` | 6.5840/src/shardkv1/shardcfg/shardcfg.go:185-205 | succeeds exactly when ids are named, all present and none twice; then removes them |
| `ShardConfig.Config.JoinBalance` | 6.5840/src/shardkv1/shardcfg/shardcfg.go:207-213 | a successful join ends balanced and hands shards only to joining groups if it began balanced |
| `ShardConfig.Config.LeaveBalance` | 6.5840/src/shardkv1/shardcfg/shardcfg.go:215-221 | a successful leave ends balanced and moves only departed groups' shards if it began balanced |

## Left out

- Timers, randomness and clocks: a timeout may happen at any moment; time is a parameter of the coordinator; identifiers are assumed distinct.
- Liveness: that a leader is elected, that Submit returns, that a job finishes.
- Integer width: terms, indices and versions are unbounded; a version wraps to 0 only after 2^64 successful Puts of one key.
- The gob codec and encoding failures of persist: an image reads back as written, and image and snapshot are saved in one step.
- A crash inside a critical section: restarts happen between critical sections.
- ReplicatedStore.SubmitReturnsOwnReply: for runs in which each command read is the next one, and with an operation id that names one request; it says nothing of a Submit that never returns.
- Rsm: the notification is put into the channel in the step that executes the command; the channel is buffered and private to its thread, so a later send looks like a later poll.
- KvLinear.Linearizable: for runs in which each command read is the next one, and for clerks whose failed calls have ended, so that no attempt is started after the answered one; `LateStart` shows what happens otherwise.
- KvLock: Acquire and Release are given as the places where a client can be between two calls, since their effect is only visible through other clients' interleaved steps; the loops themselves are not written as loops.
- The Get loops of the clerks and Partition of the linearizability model: they would only add easy members.
- RaftServer.Raft.SendTo: requires nextIndex to be at most one past the log; `RaftSafety.IndexInvariant` shows that it always is.
- MrJob: at least one output file; with none the worker divides by zero. Input files exist and Map is a function. The hash is any function of the key, the sort any key-sorted permutation, and Reduce does not depend on the order of values.
- ShardConfig.Analyze: fewer than 257 shards, the sentinel of the source; the configuration has 12.
- ShardConfig: Copy, String, FromString, GidServers, IsMember, and CheckConfig, whose conditions are what RebalancedIsBalanced proves.
- shardkv1 clients, controller and groups: unimplemented in the repository.
- labrpc, labgob, the test harnesses, command-line drivers and sample applications.
