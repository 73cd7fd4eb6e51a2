/** Compaction is invisible: a server that has dropped a prefix of its log answers like
    its twin that kept everything, except where this module says otherwise.

    The exceptions are these. A request that starts below the base is turned down, with a hint
    that makes the leader retry at the base; the index of a conflict is cut off at the base; a
    leader whose deciding entry is gone follows the follower's hint; and a peer that needs
    compacted entries is sent the snapshot instead. After each of them the two servers are
    twins again, or equal. */
module Compaction {
  import opened KvStore
  import opened RaftLog
  import opened RaftNode
  import opened Refinement

  /** `big` is `node` with the full log and no snapshot. */
  ghost predicate Twin(node: Node, big: Node, full: seq<Entry>) {
    && node.lastIncludedIndex <= node.commitIndex && node.lastIncludedIndex <= |full|
    && node.log == Trim(full, node.lastIncludedIndex)
    && node.lastIncludedTerm == TermAt(full, node.lastIncludedIndex)
    && big == node.(log := Trim(full, 0), lastIncludedIndex := 0, lastIncludedTerm := 0,
                    persisted := big.persisted, snapshot := big.snapshot)
  }

  lemma TwinReads(node: Node, big: Node, full: seq<Entry>, k: nat)
    requires Twin(node, big, full) && node.lastIncludedIndex <= k <= |full|
    ensures |node.log| > 0 && |big.log| > 0
    ensures LastLogIndex(node) == LastLogIndex(big) == |full|
    ensures node.log[k - node.lastIncludedIndex].term == big.log[k].term == TermAt(full, k)
    ensures node.log[k - node.lastIncludedIndex + 1..] == big.log[k + 1..] == full[k..]
  {
    TrimAt(full, node.lastIncludedIndex, k);
    TrimAt(full, 0, k);
  }

  /** Elections. */
  lemma VoteTwin(node: Node, big: Node, full: seq<Entry>, args: VoteArgs)
    requires Twin(node, big, full)
    ensures |node.log| > 0 && |big.log| > 0
    ensures RequestVote(node, args).1 == RequestVote(big, args).1
    ensures Twin(RequestVote(node, args).0, RequestVote(big, args).0, full)
  {
    TwinReads(node, big, full, |full|);
  }

  lemma ElectionTwin(node: Node, big: Node, full: seq<Entry>, me: nat, peer: nat, term: nat, reply: VoteReply)
    requires Twin(node, big, full)
    ensures |node.log| > 0 && |big.log| > 0
    ensures Twin(StartElection(node, me), StartElection(big, me), full)
    ensures VoteRequest(StartElection(node, me), me) == VoteRequest(StartElection(big, me), me)
    ensures Twin(OnVoteReply(node, peer, term, reply), OnVoteReply(big, peer, term, reply), full)
  {
    TwinReads(node, big, full, |full|);
  }

  /** New commands get the same index and term. */
  lemma StartTwin(node: Node, big: Node, full: seq<Entry>, command: Command)
    requires Twin(node, big, full)
    ensures |node.log| > 0 && |big.log| > 0
    ensures Start(node, command).1 == Start(big, command).1
    ensures Twin(Start(node, command).0, Start(big, command).0,
                 if node.role == Leader then full + [Entry(command, node.currentTerm)] else full)
  {
    TwinReads(node, big, full, |full|);
    var e := Entry(command, node.currentTerm);
    assert Trim(full + [e], node.lastIncludedIndex) == node.log + [e];
    assert Trim(full + [e], 0) == big.log + [e];
  }

  /** A leader sends the same entries, unless it has compacted them. */
  lemma ReplicateTwin(node: Node, big: Node, full: seq<Entry>, me: nat, peer: nat)
    requires Twin(node, big, full) && peer < |node.nextIndex|
    requires node.lastIncludedIndex < node.nextIndex[peer] <= |full| + 1
    ensures |node.log| > 0 && |big.log| > 0 && LastLogIndex(node) == LastLogIndex(big) == |full|
    ensures Replicate(node, me, peer) == Replicate(big, me, peer)
  {
    TwinReads(node, big, full, node.nextIndex[peer] - 1);
  }

  lemma {:induction false} RunStartTwin(full: seq<Entry>, base: nat, k: nat)
    requires base <= k <= |full|
    ensures RunStart(Trim(full, base), k - base) + base == Higher(base, RunStart(Trim(full, 0), k))
    decreases k
  {
    hide Trim;
    TrimAt(full, base, k);
    TrimAt(full, 0, k);
    if k > base {
      TrimAt(full, base, k - 1);
      TrimAt(full, 0, k - 1);
      if TermAt(full, k - 1) == TermAt(full, k) {
        RunStartTwin(full, base, k - 1);
      }
    }
  }

  lemma RecogniseTwin(node: Node, big: Node, full: seq<Entry>, term: nat)
    requires Twin(node, big, full)
    ensures Twin(Recognise(node, term), Recognise(big, term), full)
  {
  }

  lemma Verdict(node: Node, args: AppendArgs)
    requires |node.log| > 0 && node.currentTerm <= args.term && node.lastIncludedIndex <= args.prevLogIndex
    ensures AppendEntries(node, args).1 ==
      if args.prevLogIndex > LastLogIndex(node) then AppendReply(args.term, false, -1, LastLogIndex(node) + 1)
      else
        var rel := args.prevLogIndex - node.lastIncludedIndex;
        if node.log[rel].term == args.prevLogTerm then AppendReply(args.term, true, 0, 0)
        else AppendReply(args.term, false, node.log[rel].term, RunStart(node.log, rel) + node.lastIncludedIndex)
  {
  }

  /** A follower gives the same verdict on any request that starts at or above its base; the
      place it sends a mismatched leader back to is cut off at the base. */
  lemma AppendVerdictTwin(node: Node, big: Node, full: seq<Entry>, args: AppendArgs)
    requires Twin(node, big, full) && node.lastIncludedIndex <= args.prevLogIndex
    ensures |node.log| > 0 && |big.log| > 0
    ensures var r, s := AppendEntries(node, args).1, AppendEntries(big, args).1;
      && r == s.(conflictIndex := r.conflictIndex)
      && r.conflictIndex == (if args.term < node.currentTerm || r.success then 0
                             else Higher(node.lastIncludedIndex, s.conflictIndex))
      && (r.success ==> args.term >= node.currentTerm && args.prevLogIndex <= |full|)
  {
    TwinReads(node, big, full, |full|);
    if node.currentTerm <= args.term {
      hide Trim, AppendEntries, RunStart;
      Verdict(node, args);
      Verdict(big, args);
      if args.prevLogIndex <= |full| {
        TwinReads(node, big, full, args.prevLogIndex);
        RunStartTwin(full, node.lastIncludedIndex, args.prevLogIndex);
      }
    }
  }

  /** And it ends with the same log. */
  lemma AppendTwin(node: Node, big: Node, full: seq<Entry>, args: AppendArgs)
    requires Twin(node, big, full) && node.lastIncludedIndex <= args.prevLogIndex
    ensures |node.log| > 0 && |big.log| > 0
    ensures var (n, r), (b, s) := AppendEntries(node, args), AppendEntries(big, args);
      if r.success then args.prevLogIndex <= |full| && Twin(n, b, Splice(full, args.prevLogIndex, args.entries))
      else Twin(n, b, full)
  {
    hide Trim, Splice, Accept, RunStart;
    AppendVerdictTwin(node, big, full, args);
    var n, b := Recognise(node, args.term), Recognise(big, args.term);
    RecogniseTwin(node, big, full, args.term);
    if AppendEntries(node, args).1.success {
      AcceptTwin(n, b, full, args);
    }
  }

  /** The accepting branch changes the log and the commit index, and perhaps the disk. */
  lemma AcceptFields(n: Node, args: AppendArgs, log: seq<Entry>)
    requires n.lastIncludedIndex <= args.prevLogIndex <= n.lastIncludedIndex + |n.log| - 1
    requires log == Splice(n.log, args.prevLogIndex - n.lastIncludedIndex + 1, args.entries)
    ensures Accept(n, args) == n.(log := log, persisted := Accept(n, args).persisted,
      commitIndex := Higher(n.commitIndex, Min(args.leaderCommit, args.prevLogIndex + |args.entries|)))
  {
  }

  lemma SpliceBelow(full: seq<Entry>, base: nat, prev: nat, entries: seq<Entry>)
    requires base <= prev <= |full|
    ensures var log := Splice(full, prev, entries);
      && base <= |log| && TermAt(log, base) == TermAt(full, base)
      && Splice(Trim(full, base), prev - base + 1, entries) == Trim(log, base)
  {
    SpliceTrim(full, base, prev, entries);
    var log := Splice(full, prev, entries);
    assert base > 0 ==> log[..prev][base - 1] == full[..prev][base - 1];
  }

  /** Twins stay twins when both take a log that agrees at the base. */
  lemma TwinLog(n: Node, b: Node, full: seq<Entry>, log: seq<Entry>, commit: nat, x: Image, y: Image)
    requires Twin(n, b, full) && n.lastIncludedIndex <= |log| && n.commitIndex <= commit
    requires TermAt(log, n.lastIncludedIndex) == TermAt(full, n.lastIncludedIndex)
    ensures Twin(n.(log := Trim(log, n.lastIncludedIndex), persisted := x, commitIndex := commit),
                 b.(log := Trim(log, 0), persisted := y, commitIndex := commit), log)
  {
    hide Trim;
  }

  lemma AcceptTwin(n: Node, b: Node, full: seq<Entry>, args: AppendArgs)
    requires Twin(n, b, full) && n.lastIncludedIndex <= args.prevLogIndex <= |full|
    ensures args.prevLogIndex <= n.lastIncludedIndex + |n.log| - 1 && args.prevLogIndex <= |b.log| - 1
    ensures Twin(Accept(n, args), Accept(b, args), Splice(full, args.prevLogIndex, args.entries))
  {
    hide Accept, Splice, Trim;
    TwinReads(n, b, full, args.prevLogIndex);
    SpliceBelow(full, n.lastIncludedIndex, args.prevLogIndex, args.entries);
    SpliceBelow(full, 0, args.prevLogIndex, args.entries);
    var log := Splice(full, args.prevLogIndex, args.entries);
    AcceptFields(n, args, Trim(log, n.lastIncludedIndex));
    AcceptFields(b, args, Trim(log, 0));
    TwinLog(n, b, full, log, Higher(n.commitIndex, Min(args.leaderCommit, args.prevLogIndex + |args.entries|)),
            Accept(n, args).persisted, Accept(b, args).persisted);
  }

  /** Entries that are already there are skipped. */
  lemma {:induction false} SpliceSkips(log: seq<Entry>, at: nat, to: nat, entries: seq<Entry>)
    requires at <= to <= |log| && to - at <= |entries|
    requires forall k | at <= k < to :: entries[k - at].term == log[k].term
    ensures Splice(log, at, entries) == Splice(log, to, entries[to - at..])
    decreases |entries|
  {
    if at < to {
      forall k | at + 1 <= k < to ensures entries[1..][k - at - 1].term == log[k].term {
        assert entries[1..][k - at - 1] == entries[k - at];
      }
      SpliceSkips(log, at + 1, to, entries[1..]);
      assert entries[1..][to - at - 1..] == entries[to - at..];
    }
  }

  /** A request that starts below the base is turned down with a hint; the request that the
      leader then sends, for the same entries from the base on, makes the server a twin again
      of one that kept everything and took the first request. */
  lemma AppendBelowBase(node: Node, big: Node, full: seq<Entry>, args: AppendArgs, retry: AppendArgs)
    requires Twin(node, big, full) && node.currentTerm <= args.term
    requires args.prevLogIndex < node.lastIncludedIndex <= args.prevLogIndex + |args.entries|
    requires args.prevLogTerm == TermAt(full, args.prevLogIndex)
    requires forall k | args.prevLogIndex <= k < node.lastIncludedIndex ::
      args.entries[k - args.prevLogIndex].term == full[k].term
    requires retry == args.(prevLogIndex := node.lastIncludedIndex, prevLogTerm := node.lastIncludedTerm,
                            entries := args.entries[node.lastIncludedIndex - args.prevLogIndex..])
    ensures |node.log| > 0 && |big.log| > 0 && |AppendEntries(node, args).0.log| > 0
    ensures AppendEntries(node, args).1 == AppendReply(args.term, false, -1, retry.prevLogIndex + 1)
    ensures AppendEntries(big, args).1 == AppendEntries(AppendEntries(node, args).0, retry).1
         == AppendReply(args.term, true, 0, 0)
    ensures Twin(AppendEntries(AppendEntries(node, args).0, retry).0, AppendEntries(big, args).0,
                 Splice(full, args.prevLogIndex, args.entries))
  {
    hide Trim, Splice, Accept, AppendEntries, Twin, Recognise;
    TwinFacts(node, big, full);
    RecogniseTwin(node, big, full, args.term);
    var n, b, base := Recognise(node, args.term), Recognise(big, args.term), node.lastIncludedIndex;
    TurnedDown(node, args);
    TwinFacts(n, b, full);
    TrimAt(full, base, base);
    Taken(n, retry);
    TrimAt(full, 0, args.prevLogIndex);
    Taken(big, args);
    SpliceSkips(full, args.prevLogIndex, base, args.entries);
    AcceptTwin(n, b, full, retry);
    AcceptSame(b, full, args, retry);
  }

  /** A request that also ends at or below the base changes nothing for either. */
  lemma AppendInsideBase(node: Node, big: Node, full: seq<Entry>, args: AppendArgs)
    requires Twin(node, big, full) && node.currentTerm <= args.term
    requires args.prevLogIndex < node.lastIncludedIndex && args.prevLogIndex + |args.entries| <= node.lastIncludedIndex
    requires args.prevLogTerm == TermAt(full, args.prevLogIndex)
    requires forall k | 0 <= k < |args.entries| :: args.entries[k].term == full[args.prevLogIndex + k].term
    ensures |node.log| > 0 && |big.log| > 0
    ensures AppendEntries(node, args).1 == AppendReply(args.term, false, -1, node.lastIncludedIndex + 1)
    ensures AppendEntries(big, args).1 == AppendReply(args.term, true, 0, 0)
    ensures Twin(AppendEntries(node, args).0, AppendEntries(big, args).0, full)
  {
    hide Trim, Splice, Accept, AppendEntries, Twin, Recognise;
    TwinFacts(node, big, full);
    RecogniseTwin(node, big, full, args.term);
    TurnedDown(node, args);
    TrimAt(full, 0, args.prevLogIndex);
    Taken(big, args);
    var n, b := Recognise(node, args.term), Recognise(big, args.term);
    TwinFacts(n, b, full);
    SpliceKeeps(full, args.prevLogIndex, args.entries);
    AcceptNothing(b, full, args);
  }

  lemma SpliceKeeps(full: seq<Entry>, prev: nat, entries: seq<Entry>)
    requires prev + |entries| <= |full|
    requires forall k | 0 <= k < |entries| :: entries[k].term == full[prev + k].term
    ensures Splice(full, prev, entries) == full
  {
    var end := prev + |entries|;
    SpliceSkips(full, prev, end, entries);
    assert entries[end - prev..] == [];
  }

  lemma AcceptNothing(b: Node, full: seq<Entry>, args: AppendArgs)
    requires b.lastIncludedIndex == 0 && b.log == Trim(full, 0) && args.prevLogIndex <= |full|
    requires Splice(full, args.prevLogIndex, args.entries) == full
    requires args.prevLogIndex + |args.entries| <= b.commitIndex
    ensures args.prevLogIndex <= |b.log| - 1 && Accept(b, args) == b
  {
    hide Splice, Trim;
    TrimAt(full, 0, |full|);
    SpliceBelow(full, 0, args.prevLogIndex, args.entries);
  }

  lemma TwinFacts(node: Node, big: Node, full: seq<Entry>)
    requires Twin(node, big, full)
    ensures node.lastIncludedIndex <= |full| && node.log == Trim(full, node.lastIncludedIndex)
    ensures node.lastIncludedTerm == TermAt(full, node.lastIncludedIndex)
    ensures big.lastIncludedIndex == 0 && big.log == Trim(full, 0) && big.currentTerm == node.currentTerm
    ensures big.commitIndex == node.commitIndex >= node.lastIncludedIndex
    ensures |node.log| == |full| - node.lastIncludedIndex + 1 && |big.log| == |full| + 1
  {
  }

  lemma TurnedDown(node: Node, args: AppendArgs)
    requires |node.log| > 0 && node.currentTerm <= args.term && args.prevLogIndex < node.lastIncludedIndex
    ensures AppendEntries(node, args)
         == (Recognise(node, args.term), AppendReply(args.term, false, -1, node.lastIncludedIndex + 1))
    ensures Recognise(node, args.term).lastIncludedIndex == node.lastIncludedIndex
    ensures Recognise(node, args.term).currentTerm == args.term && Recognise(node, args.term).role != Candidate
  {
  }

  lemma Taken(node: Node, args: AppendArgs)
    requires |node.log| > 0 && node.currentTerm <= args.term
    requires node.lastIncludedIndex <= args.prevLogIndex <= LastLogIndex(node)
    requires node.log[args.prevLogIndex - node.lastIncludedIndex].term == args.prevLogTerm
    ensures AppendEntries(node, args) == (Accept(Recognise(node, args.term), args), AppendReply(args.term, true, 0, 0))
    ensures node.currentTerm == args.term && node.role != Candidate ==> Recognise(node, args.term) == node
  {
  }

  /** With the whole log, the two requests come to the same. */
  lemma AcceptSame(b: Node, full: seq<Entry>, args: AppendArgs, retry: AppendArgs)
    requires b.lastIncludedIndex == 0 && b.log == Trim(full, 0)
    requires args.prevLogIndex <= |full| && retry.prevLogIndex <= |full|
    requires retry == args.(prevLogIndex := retry.prevLogIndex, prevLogTerm := retry.prevLogTerm, entries := retry.entries)
    requires retry.prevLogIndex + |retry.entries| == args.prevLogIndex + |args.entries|
    requires Splice(full, args.prevLogIndex, args.entries) == Splice(full, retry.prevLogIndex, retry.entries)
    ensures args.prevLogIndex <= |b.log| - 1 && retry.prevLogIndex <= |b.log| - 1
    ensures Accept(b, args) == Accept(b, retry)
  {
    hide Splice, Trim;
    TrimAt(full, 0, |full|);
    SpliceBelow(full, 0, args.prevLogIndex, args.entries);
    SpliceBelow(full, 0, retry.prevLogIndex, retry.entries);
  }

  /** A snapshot above the base leaves no trace of what was compacted before: both servers end
      in one state. */
  lemma InstallTwin(node: Node, big: Node, full: seq<Entry>, args: SnapshotArgs)
    requires Twin(node, big, full) && args.lastIncludedIndex > node.lastIncludedIndex && node.currentTerm <= args.term
    ensures |node.log| > 0 && |big.log| > 0 && InstallSnapshot(node, args) == InstallSnapshot(big, args)
  {
    var base, k := node.lastIncludedIndex, args.lastIncludedIndex;
    TwinFacts(node, big, full);
    assert DropPrefix(node.log, k - base, args.lastIncludedTerm) == DropPrefix(big.log, k, args.lastIncludedTerm) by {
      hide Trim;
      if k <= |full| {
        TrimAt(full, base, k);
        TrimAt(full, 0, k);
      }
    }
    hide DropPrefix, Trim;
  }

  /** A snapshot at or below the base, which the log extends, is nothing for the compacted
      server; for the one that kept everything it is a snapshot of its own. */
  lemma InstallBelowBase(node: Node, big: Node, full: seq<Entry>, args: SnapshotArgs)
    requires Twin(node, big, full) && 0 < args.lastIncludedIndex <= node.lastIncludedIndex && node.currentTerm <= args.term
    requires TermAt(full, args.lastIncludedIndex) == args.lastIncludedTerm
    ensures |node.log| > 0 && |big.log| > 0 && InstallSnapshot(node, args).1 == InstallSnapshot(big, args).1
    ensures Twin(InstallSnapshot(node, args).0, Recognise(big, args.term), full)
    ensures args.lastIncludedIndex <= LastLogIndex(Recognise(big, args.term))
    ensures InstallSnapshot(big, args).0 == RaftNode.Snapshot(Recognise(big, args.term), args.lastIncludedIndex, args.data)
  {
    hide Trim;
    TwinReads(node, big, full, |full|);
    RecogniseTwin(node, big, full, args.term);
    TrimAt(full, 0, args.lastIncludedIndex);
  }

  lemma {:induction false} CommitScanTwin(node: Node, big: Node, full: seq<Entry>, me: nat, n: nat)
    requires Twin(node, big, full) && n <= |full|
    ensures |node.log| > 0 && |big.log| > 0 && LastLogIndex(node) == LastLogIndex(big) == |full|
    ensures CommitScan(node, me, n) == CommitScan(big, me, n)
    decreases n
  {
    TwinReads(node, big, full, |full|);
    if n > node.commitIndex {
      TwinReads(node, big, full, n);
      CommitScanTwin(node, big, full, me, n - 1);
    }
  }

  lemma {:induction false} LastOfTermTwin(full: seq<Entry>, base: nat, k: nat, t: int)
    requires base <= k <= |full|
    ensures k - base < |Trim(full, base)| && k < |Trim(full, 0)|
    ensures var i, j := LastOfTerm(Trim(full, base), k - base, t), LastOfTerm(Trim(full, 0), k, t);
      if j > base then i + base == j else i == 0
    decreases k
  {
    TrimAt(full, base, k);
    TrimAt(full, 0, k);
    if k > base && TermAt(full, k) != t {
      LastOfTermTwin(full, base, k - 1, t);
    }
  }

  /** A leader advances its commit index alike. After a rejection it retries at the same
      index, unless the entry that decides was compacted; then it follows the hint. */
  lemma AppendReplyTwin(node: Node, big: Node, full: seq<Entry>, me: nat, peer: nat, term: nat, prev: nat, count: nat,
                        reply: AppendReply)
    requires Twin(node, big, full) && peer < |node.nextIndex| == |node.matchIndex|
    ensures |node.log| > 0 && |big.log| > 0
    ensures var n := OnAppendReply(node, me, peer, term, prev, count, reply);
            var b := OnAppendReply(big, me, peer, term, prev, count, reply);
      if reply.success || reply.term > node.currentTerm then Twin(n, b, full)
      else
        var j := LastOfTerm(big.log, |big.log| - 1, reply.conflictTerm);
        && Backup(node, reply) == (if 0 < j <= node.lastIncludedIndex && reply.conflictTerm != -1
                                   then reply.conflictIndex else Backup(big, reply))
        && (Backup(node, reply) == Backup(big, reply) ==> Twin(n, b, full))
  {
    TwinReads(node, big, full, |full|);
    LastOfTermTwin(full, node.lastIncludedIndex, |full|, reply.conflictTerm);
    if reply.success {
      var n := node.(matchIndex := node.matchIndex[peer := prev + count], nextIndex := node.nextIndex[peer := prev + count + 1]);
      var b := big.(matchIndex := big.matchIndex[peer := prev + count], nextIndex := big.nextIndex[peer := prev + count + 1]);
      CommitScanTwin(n, b, full, me, |full|);
    }
  }

  /** Taking a snapshot changes nothing that the twin can see, and hands over the same commands. */
  lemma SnapshotTwin(node: Node, big: Node, full: seq<Entry>, index: nat, data: Store)
    requires Twin(node, big, full) && index <= node.lastApplied <= node.commitIndex <= |full|
    ensures |node.log| > 0 && index <= LastLogIndex(node)
    ensures Twin(RaftNode.Snapshot(node, index, data), big, full)
  {
    TwinReads(node, big, full, |full|);
    if index > node.lastIncludedIndex {
      TwinReads(node, big, full, index);
    }
  }

  lemma BatchTwin(node: Node, big: Node, full: seq<Entry>)
    requires Twin(node, big, full) && node.lastIncludedIndex <= node.lastApplied <= node.commitIndex <= |full|
    ensures |node.log| > 0 && |big.log| > 0 && LastLogIndex(node) == LastLogIndex(big) == |full|
    ensures Batch(node) == Batch(big) == full[node.lastApplied..node.commitIndex]
  {
    TwinReads(node, big, full, |full|);
    assert Batch(node) == full[node.lastApplied..node.commitIndex];
    assert Batch(big) == full[node.lastApplied..node.commitIndex];
  }
}
