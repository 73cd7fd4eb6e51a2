/** The Raft server as an object whose critical sections update it in place.
    Each method is proved to do to the server's value what RaftNode says it does. */
module RaftServer {
  import opened KvStore
  import opened Quorum
  import opened RaftLog
  import opened RaftNode

  /** The replicas found among the first `i` peers, and the server itself. */
  ghost function Counted(matchIndex: seq<nat>, me: nat, n: nat, i: nat): set<nat> {
    set p: nat | p < |matchIndex| && (p == me || (p < i && matchIndex[p] >= n))
  }

  lemma CountedNone(matchIndex: seq<nat>, me: nat, n: nat)
    requires me < |matchIndex|
    ensures |Counted(matchIndex, me, n, 0)| == 1
  {
    assert Counted(matchIndex, me, n, 0) == {me};
  }

  lemma CountedNext(matchIndex: seq<nat>, me: nat, n: nat, i: nat)
    requires i < |matchIndex|
    ensures |Counted(matchIndex, me, n, i + 1)|
         == |Counted(matchIndex, me, n, i)| + (if i != me && matchIndex[i] >= n then 1 else 0)
  {
    var c := Counted(matchIndex, me, n, i);
    if i != me && matchIndex[i] >= n {
      assert Counted(matchIndex, me, n, i + 1) == c + {i};
    } else {
      assert Counted(matchIndex, me, n, i + 1) == c;
    }
  }

  lemma CountedAll(matchIndex: seq<nat>, me: nat, n: nat)
    ensures Counted(matchIndex, me, n, |matchIndex|) == Replicas(matchIndex, me, n)
  {
  }

  class Raft {
    const me: nat
    const nextIndex: array<nat>
    const matchIndex: array<nat>
    var currentTerm: nat
    var votedFor: int
    var log: seq<Entry>
    var lastIncludedIndex: nat
    var lastIncludedTerm: nat
    var commitIndex: nat
    var lastApplied: nat
    var role: Role
    var votes: nat
    var awaiting: set<nat>
    var persisted: Image
    var snapshot: Store

    ghost predicate Valid()
      reads this
    {
      && nextIndex != matchIndex && nextIndex.Length == matchIndex.Length
      && me < nextIndex.Length && |log| > 0
    }

    /** The value of the server. */
    ghost function View(): Node
      reads this, nextIndex, matchIndex
    {
      Node(currentTerm, votedFor, log, lastIncludedIndex, lastIncludedTerm, commitIndex, lastApplied,
           nextIndex[..], matchIndex[..], role, votes, awaiting, persisted, snapshot)
    }

    /** Indices that hold in every reachable state of the cluster. */
    ghost predicate InOrder()
      reads this
    {
      lastIncludedIndex <= lastApplied <= commitIndex <= |log| - 1 + lastIncludedIndex
    }

    constructor Make(peers: nat, me: nat, image: Image, snapshot: Store)
      requires me < peers && |Load(image).log| > 0
      ensures Valid() && fresh(nextIndex) && fresh(matchIndex)
      ensures this.me == me && View() == Boot(peers, image, snapshot)
    {
      this.me := me;
      var m := Load(image);
      currentTerm, votedFor, log := m.currentTerm, m.votedFor, m.log;
      lastIncludedIndex, lastIncludedTerm := m.lastIncludedIndex, m.lastIncludedTerm;
      commitIndex, lastApplied := m.lastIncludedIndex, m.lastIncludedIndex;
      nextIndex := new nat[peers](_ => 0);
      matchIndex := new nat[peers](_ => 0);
      role, votes, awaiting := Follower, 0, {};
      persisted, this.snapshot := image, snapshot;
    }

    method SavePersist()
      requires Valid()
      modifies this`persisted
      ensures Valid() && View() == Persist(old(View()))
    {
      persisted := Image(currentTerm, votedFor, log, lastIncludedIndex, lastIncludedTerm);
    }

    method BecomeFollower(term: nat)
      requires Valid()
      modifies this`currentTerm, this`role, this`votedFor, this`persisted
      ensures Valid() && View() == StepDown(old(View()), term)
    {
      currentTerm := term;
      role := Follower;
      votedFor := -1;
      SavePersist();
    }

    method StartElection() returns (args: VoteArgs)
      requires Valid()
      modifies this
      ensures Valid() && View() == RaftNode.StartElection(old(View()), me)
      ensures args == VoteRequest(View(), me)
    {
      role := Candidate;
      currentTerm := currentTerm + 1;
      votedFor := me;
      SavePersist();
      votes := 1;
      awaiting := Servers(nextIndex.Length) - {me};
      args := VoteArgs(currentTerm, me, |log| - 1 + lastIncludedIndex, log[|log| - 1].term);
    }

    method RequestVote(args: VoteArgs) returns (reply: VoteReply)
      requires Valid()
      modifies this
      ensures Valid() && (View(), reply) == RaftNode.RequestVote(old(View()), args)
    {
      if args.term < currentTerm {
        return VoteReply(currentTerm, false);
      }
      if args.term > currentTerm {
        BecomeFollower(args.term);
      }
      var lastLogIndex := |log| - 1 + lastIncludedIndex;
      var lastLogTerm := log[|log| - 1].term;
      var logUpToDate := false;
      if args.lastLogTerm > lastLogTerm {
        logUpToDate := true;
      } else if args.lastLogTerm == lastLogTerm {
        if args.lastLogIndex >= lastLogIndex {
          logUpToDate := true;
        }
      }
      reply := VoteReply(currentTerm, false);
      if (votedFor == -1 || votedFor == args.candidateId) && logUpToDate {
        votedFor := args.candidateId;
        reply := VoteReply(currentTerm, true);
        SavePersist();
      }
    }

    method OnVoteReply(peer: nat, term: nat, reply: VoteReply)
      requires Valid()
      modifies this, nextIndex, matchIndex
      ensures Valid() && View() == RaftNode.OnVoteReply(old(View()), peer, term, reply)
    {
      if role != Candidate || currentTerm != term {
        return;
      }
      if reply.term > currentTerm {
        BecomeFollower(reply.term);
        return;
      }
      awaiting := awaiting - {peer};
      if reply.granted {
        votes := votes + 1;
        if votes > nextIndex.Length / 2 && role == Candidate {
          role := Leader;
          ResetProgress(|log| - 1 + lastIncludedIndex);
        }
      }
    }

    /** The per-peer indices of a new leader. */
    method ResetProgress(lastLogIndex: nat)
      requires Valid()
      modifies nextIndex, matchIndex
      ensures nextIndex[..] == seq(nextIndex.Length, _ => lastLogIndex + 1)
      ensures matchIndex[..] == seq(matchIndex.Length, _ => 0)
    {
      for i := 0 to nextIndex.Length
        invariant forall k | 0 <= k < i :: nextIndex[k] == lastLogIndex + 1 && matchIndex[k] == 0
      {
        nextIndex[i] := lastLogIndex + 1;
        matchIndex[i] := 0;
      }
    }

    method Start(command: Command) returns (r: Started)
      requires Valid()
      modifies this
      ensures Valid() && (View(), r) == RaftNode.Start(old(View()), command)
    {
      if role != Leader {
        return NotLeader;
      }
      log := log + [Entry(command, currentTerm)];
      SavePersist();
      r := Started(|log| - 1 + lastIncludedIndex, currentTerm);
    }

    method SendTo(peer: nat) returns (out: Outgoing)
      requires Valid() && peer < nextIndex.Length
      requires nextIndex[peer] <= |log| + lastIncludedIndex
      ensures out == Replicate(View(), me, peer)
    {
      if nextIndex[peer] <= lastIncludedIndex {
        return SendSnapshot(SnapshotArgs(currentTerm, me, lastIncludedIndex, lastIncludedTerm, snapshot));
      }
      var prevLogIndex := nextIndex[peer] - 1;
      var prevLogTerm := log[prevLogIndex - lastIncludedIndex].term;
      var entries := log[nextIndex[peer] - lastIncludedIndex..];
      out := SendAppend(AppendArgs(currentTerm, me, prevLogIndex, prevLogTerm, entries, commitIndex));
    }

    /** Servers that hold index `n`, counted one by one. */
    method CountReplicas(n: nat) returns (count: nat)
      requires Valid()
      ensures count == |Replicas(matchIndex[..], me, n)|
    {
      count := 1;
      CountedNone(matchIndex[..], me, n);
      for peer := 0 to matchIndex.Length
        invariant count == |Counted(matchIndex[..], me, n, peer)|
      {
        CountedNext(matchIndex[..], me, n, peer);
        if peer != me && matchIndex[peer] >= n {
          count := count + 1;
        }
      }
      CountedAll(matchIndex[..], me, n);
    }

    method UpdateCommitIndex()
      requires Valid() && InOrder()
      modifies this`commitIndex
      ensures Valid() && View() == UpdateCommit(old(View()), me)
    {
      ghost var node := View();
      var n := |log| - 1 + lastIncludedIndex;
      while n > commitIndex
        invariant View() == node && commitIndex <= n <= |log| - 1 + lastIncludedIndex
        invariant CommitScan(node, me, LastLogIndex(node)) == CommitScan(node, me, n)
      {
        if log[n - lastIncludedIndex].term != currentTerm {
          return;
        }
        var count := CountReplicas(n);
        if count > matchIndex.Length / 2 {
          commitIndex := n;
          return;
        }
        n := n - 1;
      }
    }

    method OnAppendReply(peer: nat, term: nat, prevLogIndex: nat, count: nat, reply: AppendReply)
      requires Valid() && InOrder() && peer < nextIndex.Length
      modifies this, nextIndex, matchIndex
      ensures Valid()
      ensures View() == RaftNode.OnAppendReply(old(View()), me, peer, term, prevLogIndex, count, reply)
    {
      if role != Leader || currentTerm != term {
        return;
      }
      if reply.term > currentTerm {
        BecomeFollower(reply.term);
        return;
      }
      if reply.success {
        matchIndex[peer] := prevLogIndex + count;
        nextIndex[peer] := matchIndex[peer] + 1;
        UpdateCommitIndex();
      } else if reply.conflictTerm == -1 {
        nextIndex[peer] := reply.conflictIndex;
      } else {
        var i := FindLastOfTerm(reply.conflictTerm);
        if i > 0 {
          nextIndex[peer] := i + lastIncludedIndex + 1;
        } else {
          nextIndex[peer] := reply.conflictIndex;
        }
      }
    }

    /** Scan down for an entry of the given term; 0 when there is none. */
    method FindLastOfTerm(t: int) returns (i: nat)
      requires Valid()
      ensures i == LastOfTerm(log, |log| - 1, t)
    {
      i := |log| - 1;
      while i > 0
        invariant i < |log| && LastOfTerm(log, |log| - 1, t) == LastOfTerm(log, i, t)
      {
        if log[i].term == t {
          return;
        }
        i := i - 1;
      }
    }

    method OnSnapshotReply(peer: nat, term: nat, included: nat, replyTerm: nat)
      requires Valid() && peer < nextIndex.Length
      modifies this, nextIndex, matchIndex
      ensures Valid()
      ensures View() == RaftNode.OnSnapshotReply(old(View()), peer, term, included, replyTerm)
    {
      if role != Leader || currentTerm != term {
        return;
      }
      if replyTerm > currentTerm {
        BecomeFollower(replyTerm);
        return;
      }
      if matchIndex[peer] < included {
        matchIndex[peer] := included;
      }
      nextIndex[peer] := matchIndex[peer] + 1;
    }

    /** Adopt the term of a current leader, and stop standing for election. */
    method RecogniseTerm(term: nat)
      requires Valid()
      modifies this`currentTerm, this`role, this`votedFor, this`persisted
      ensures Valid() && View() == Recognise(old(View()), term)
    {
      if term > currentTerm {
        BecomeFollower(term);
      } else if role == Candidate {
        role := Follower;
      }
    }

    /** First index of the run of equal terms that ends at position `rel`. */
    method FindRunStart(rel: nat) returns (first: nat)
      requires Valid() && rel < |log|
      ensures first == RunStart(log, rel) + lastIncludedIndex
    {
      first := rel + lastIncludedIndex;
      while first > lastIncludedIndex && log[first - 1 - lastIncludedIndex].term == log[rel].term
        invariant lastIncludedIndex <= first <= rel + lastIncludedIndex
        invariant log[first - lastIncludedIndex].term == log[rel].term
        invariant RunStart(log, first - lastIncludedIndex) == RunStart(log, rel)
      {
        first := first - 1;
      }
    }

    /** Skip entries already present, cut the log at the first conflict, append the rest. */
    method AppendNew(rel: nat, entries: seq<Entry>) returns (hasNewEntries: bool)
      requires Valid() && 0 < rel <= |log|
      modifies this`log
      ensures Valid() && log == Splice(old(log), rel, entries)
      ensures hasNewEntries <==> log != old(log)
    {
      hasNewEntries := false;
      ghost var cut := 0;
      for i := 0 to |entries|
        invariant 0 < rel + i <= |log|
        invariant Splice(log, rel + i, entries[i..]) == Splice(old(log), rel, entries)
        invariant !hasNewEntries ==> log == old(log)
        invariant hasNewEntries ==> |log| == rel + i && cut < |log|
        invariant hasNewEntries && cut < |old(log)| ==> log[cut].term != old(log)[cut].term
      {
        var entry := entries[i];
        assert entries[i..][0] == entry && entries[i..][1..] == entries[i + 1..];
        var relIndex := rel + i;
        if relIndex < |log| {
          if log[relIndex].term != entry.term {
            cut := relIndex;
            log := log[..relIndex];
            log := log + [entry];
            hasNewEntries := true;
          }
        } else {
          cut := if hasNewEntries then cut else relIndex;
          assert log[..relIndex] == log;
          log := log + [entry];
          hasNewEntries := true;
        }
      }
    }

    method AppendEntries(args: AppendArgs) returns (reply: AppendReply)
      requires Valid()
      modifies this
      ensures Valid() && (View(), reply) == RaftNode.AppendEntries(old(View()), args)
    {
      if args.term < currentTerm {
        return AppendReply(currentTerm, false, 0, 0);
      }
      RecogniseTerm(args.term);
      if args.prevLogIndex < lastIncludedIndex {
        return AppendReply(currentTerm, false, -1, lastIncludedIndex + 1);
      }
      var lastLogIndex := |log| - 1 + lastIncludedIndex;
      if args.prevLogIndex > lastLogIndex {
        return AppendReply(currentTerm, false, -1, lastLogIndex + 1);
      }
      var rel := args.prevLogIndex - lastIncludedIndex;
      if log[rel].term != args.prevLogTerm {
        var first := FindRunStart(rel);
        return AppendReply(currentTerm, false, log[rel].term, first);
      }
      var hasNewEntries := AppendNew(rel + 1, args.entries);
      if hasNewEntries {
        SavePersist();
      }
      if args.leaderCommit > commitIndex {
        var newCommitIndex := args.leaderCommit;
        if args.prevLogIndex + |args.entries| < newCommitIndex {
          newCommitIndex := args.prevLogIndex + |args.entries|;
        }
        if newCommitIndex > commitIndex {
          commitIndex := newCommitIndex;
        }
      }
      reply := AppendReply(currentTerm, true, 0, 0);
    }

    method SaveStateAndSnapshot(data: Store)
      requires Valid()
      modifies this`persisted, this`snapshot
      ensures Valid() && View() == Save(old(View()), data)
    {
      persisted := Image(currentTerm, votedFor, log, lastIncludedIndex, lastIncludedTerm);
      snapshot := data;
    }

    method RaiseTo(index: nat)
      modifies this`commitIndex, this`lastApplied
      ensures commitIndex == Higher(old(commitIndex), index)
      ensures lastApplied == Higher(old(lastApplied), index)
    {
      if commitIndex < index {
        commitIndex := index;
      }
      if lastApplied < index {
        lastApplied := index;
      }
    }

    /** Keep what follows position `rel`, provided the snapshot ends in the entry there. */
    method KeepAbove(rel: int, term: nat)
      requires Valid()
      modifies this`log
      ensures Valid() && log == DropPrefix(old(log), rel, term)
    {
      if rel > 0 && rel < |log| && log[rel].term == term {
        log := [Entry(Nothing, term)] + log[rel + 1..];
      } else {
        log := [Entry(Nothing, term)];
      }
    }

    method InstallSnapshot(args: SnapshotArgs) returns (replyTerm: nat)
      requires Valid()
      modifies this
      ensures Valid() && (View(), replyTerm) == RaftNode.InstallSnapshot(old(View()), args)
    {
      replyTerm := currentTerm;
      if args.term < currentTerm {
        return;
      }
      RecogniseTerm(args.term);
      if args.lastIncludedIndex <= lastIncludedIndex {
        return;
      }
      KeepAbove(args.lastIncludedIndex - lastIncludedIndex, args.lastIncludedTerm);
      lastIncludedIndex, lastIncludedTerm := args.lastIncludedIndex, args.lastIncludedTerm;
      RaiseTo(args.lastIncludedIndex);
      SaveStateAndSnapshot(args.data);
    }

    method Snapshot(index: nat, data: Store)
      requires Valid() && index <= |log| - 1 + lastIncludedIndex
      modifies this
      ensures Valid() && View() == RaftNode.Snapshot(old(View()), index, data)
    {
      if index <= lastIncludedIndex {
        return;
      }
      var rel := index - lastIncludedIndex;
      lastIncludedTerm := log[rel].term;
      log := [Entry(Nothing, lastIncludedTerm)] + log[rel + 1..];
      lastIncludedIndex := index;
      RaiseTo(index);
      SaveStateAndSnapshot(data);
    }

    /** One round of the applier: hand over everything committed since the last round. */
    method CollectCommitted() returns (batch: seq<Entry>)
      requires Valid() && InOrder()
      modifies this`lastApplied
      ensures Valid() && View() == old(View()).(lastApplied := commitIndex)
      ensures batch == Batch(old(View()))
    {
      batch := [];
      while lastApplied < commitIndex
        invariant old(lastApplied) <= lastApplied <= commitIndex
        invariant batch == log[old(lastApplied) + 1 - lastIncludedIndex..lastApplied + 1 - lastIncludedIndex]
      {
        lastApplied := lastApplied + 1;
        batch := batch + [log[lastApplied - lastIncludedIndex]];
      }
    }
  }
}
