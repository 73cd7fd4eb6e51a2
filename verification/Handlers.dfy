/** Each critical section of a compacted server is a short sequence of protocol steps.

    Given a server that is related to its peer in a state `a` of the protocol, each lemma finds
    a state `b` that steps of this peer lead to, in which the server that the handler returns is
    related to the peer again. The other servers need no attention: their relation survives as
    the history grows. Where a handler sends a message, `b` also justifies what the message
    says, so that whoever receives it later can rely on it: a vote request describes the log
    the candidate stood with, a granted vote was cast, an AppendEntries request is an excerpt
    of its leader's log, and an acknowledgement covers what the follower holds. Only Start
    places an entry; every other handler leaves the entries of all leaders as they are. */
module Handlers {
  import opened KvStore
  import opened Quorum
  import opened RaftLog
  import opened RaftNode
  import C = Consensus
  import P = ConsensusProof
  import opened Refinement

  /** The facts about a related server that its handlers rely on. */
  lemma Basics(node: Node, a: C.State, i: nat)
    requires NodeRel(node, a, i)
    ensures i < |a.peers| && |node.log| > 0 && |a.peers[i].log| == LastLogIndex(node)
    ensures |node.nextIndex| == |node.matchIndex| == |a.peers|
    ensures node.currentTerm == a.peers[i].term
    ensures node.lastIncludedIndex <= node.commitIndex == a.peers[i].commit <= |a.peers[i].log|
    ensures node.log == Trim(a.peers[i].log, node.lastIncludedIndex) && Load(node.persisted) == Memory(node)
  {
    TrimAt(a.peers[i].log, node.lastIncludedIndex, |a.peers[i].log|);
  }

  // ---------------------------------------------------------------- terms

  lemma StepDownRefines(node: Node, a: C.State, i: nat, t: nat) returns (b: C.State)
    requires C.Inv(a) && NodeRel(node, a, i) && t > node.currentTerm
    ensures Moved(a, b, i) && NodeRel(StepDown(node, t), b, i)
    ensures b == C.BumpTerm(a, i, t)
  {
    b := C.BumpTerm(a, i, t);
    P.BumpKeeps(a, i, t);
    assert t in a.peers[i].vote ==> C.VoteOk(a, i, t);
  }

  lemma RecogniseRefines(node: Node, a: C.State, i: nat, t: nat) returns (b: C.State)
    requires C.Inv(a) && NodeRel(node, a, i) && t >= node.currentTerm
    ensures Moved(a, b, i) && NodeRel(Recognise(node, t), b, i)
    ensures b.peers[i].term == t && b.lead == a.lead
    ensures b.peers[i].log == a.peers[i].log && b.peers[i].commit == a.peers[i].commit
  {
    if t > node.currentTerm {
      b := StepDownRefines(node, a, i, t);
    } else {
      b := a;
      MovedRefl(a, i);
    }
  }

  // ---------------------------------------------------------------- elections

  lemma TimeoutRefines(node: Node, a: C.State, i: nat) returns (b: C.State)
    requires C.Inv(a) && NodeRel(node, a, i)
    ensures Moved(a, b, i) && NodeRel(StartElection(node, i), b, i)
    ensures VoteArgsOk(VoteRequest(StartElection(node, i), i), b)
  {
    b := C.Stand(a, i);
    P.StandKeeps(a, i);
    var t := b.peers[i].term;
    assert t in a.lead ==> C.LeadOk(a, t);
    assert t in a.peers[i].cand ==> C.CandOk(a, i, t);
    var n := StartElection(node, i);
    assert C.VotedFor(b, i, t, i);
    SubsetCard({i}, Supporters(b, i, t) - n.awaiting);
    TrimAt(a.peers[i].log, node.lastIncludedIndex, |a.peers[i].log|);
  }

  lemma VoteReqRefines(node: Node, a: C.State, i: nat, args: VoteArgs)
    requires C.Inv(a) && NodeRel(node, a, i) && VoteArgsOk(args, a)
    ensures exists b :: Moved(a, b, i) && NodeRel(RequestVote(node, args).0, b, i)
                     && (RequestVote(node, args).1.granted ==> C.VotedFor(b, i, args.term, args.candidateId))
  {
    hide C.Inv, C.Grows, NodeRel;
    var b: C.State;
    Basics(node, a, i);
    if args.term < node.currentTerm {
      b := a;
      MovedRefl(a, i);
    } else {
      var n := node;
      b := a;
      MovedRefl(a, i);
      if args.term > node.currentTerm {
        n := StepDown(node, args.term);
        b := StepDownRefines(node, a, i, args.term);
      }
      VoteArgsGrow(args, a, b);
      if RequestVote(node, args).1.granted {
        GrantRefines(n, b, i, args);
        var c :| Moved(b, c, i) && NodeRel(RequestVote(node, args).0, c, i)
                 && C.VotedFor(c, i, args.term, args.candidateId);
        MovedTransitive(a, b, c, i);
        b := c;
      }
    }
    assert Moved(a, b, i);
  }

  lemma GrantRefines(n: Node, a: C.State, i: nat, args: VoteArgs)
    requires C.Inv(a) && NodeRel(n, a, i) && VoteArgsOk(args, a) && args.term == n.currentTerm
    requires n.votedFor == -1 || n.votedFor == args.candidateId
    requires args.lastLogTerm > LastLogTerm(n)
             || (args.lastLogTerm == LastLogTerm(n) && args.lastLogIndex >= LastLogIndex(n))
    ensures exists b :: Moved(a, b, i) && NodeRel(Persist(n.(votedFor := args.candidateId)), b, i)
                     && C.VotedFor(b, i, args.term, args.candidateId)
  {
    var p := a.peers[i];
    TrimAt(p.log, n.lastIncludedIndex, |p.log|);
    var b := C.Grant(a, i, args.candidateId, args.term);
    P.GrantKeeps(a, i, args.candidateId, args.term);
    GrantRel(n, a, i, args.candidateId);
    assert Moved(a, b, i) && C.VotedFor(b, i, args.term, args.candidateId);
  }

  lemma GrantRel(n: Node, a: C.State, i: nat, c: nat)
    requires NodeRel(n, a, i) && c < |a.peers| && C.Grows(a, C.Grant(a, i, c, n.currentTerm))
    ensures NodeRel(Persist(n.(votedFor := c)), C.Grant(a, i, c, n.currentTerm), i)
  {
    hide C.Grows, Supporters, Trim;
    SupportersGrow(a, C.Grant(a, i, c, n.currentTerm), i, n.currentTerm, n.awaiting);
  }

  /** A candidate that counted a majority is the first leader of its term. */
  lemma WinnerIsFirst(a: C.State, i: nat, t: nat)
    requires C.Inv(a) && i < |a.peers| && Majority(Supporters(a, i, t), |a.peers|) && t in a.lead
    ensures a.lead[t].leader == i
  {
    assert C.LeadOk(a, t);
    var v := Intersect(Supporters(a, i, t), a.lead[t].voters, |a.peers|);
    assert C.VotedFor(a, v, t, a.lead[t].leader);
  }

  lemma ElectRefines(node: Node, a: C.State, i: nat)
    requires C.Inv(a) && NodeRel(node, a, i) && node.role == Candidate
    requires node.votes > |node.nextIndex| / 2
    ensures Refined(BecomeLeader(node), a, i)
  {
    var t := a.peers[i].term;
    var q := Supporters(a, i, t);
    SubsetCard(q - node.awaiting, q);
    if t in a.lead {
      WinnerIsFirst(a, i, t);
    }
    var b := C.Elect(a, i, t, q);
    P.ElectKeeps(a, i, t, q);
    ElectRel(node, a, i, q);
    assert C.CandOk(a, i, t);
    assert Moved(a, b, i);
  }

  lemma ElectRel(node: Node, a: C.State, i: nat, q: set<nat>)
    requires NodeRel(node, a, i)
    ensures |node.log| > 0 && NodeRel(BecomeLeader(node), C.Elect(a, i, node.currentTerm, q), i)
  {
    TrimAt(a.peers[i].log, node.lastIncludedIndex, |a.peers[i].log|);
  }

  /** A reply is counted once: its sender leaves the set of outstanding replies. */
  lemma TallyRefines(node: Node, a: C.State, i: nat, peer: nat, granted: bool)
    requires NodeRel(node, a, i) && node.role == Candidate && peer in node.awaiting
    requires granted ==> C.VotedFor(a, peer, node.currentTerm, i)
    ensures NodeRel(node.(awaiting := node.awaiting - {peer},
                          votes := if granted then node.votes + 1 else node.votes), a, i)
  {
    var s := Supporters(a, i, node.currentTerm);
    var w := node.awaiting - {peer};
    if granted {
      assert s - w == s - node.awaiting + {peer};
    } else {
      SubsetCard(s - node.awaiting, s - w);
    }
  }

  lemma VoteRepRefines(node: Node, a: C.State, i: nat, peer: nat, t: nat, r: VoteReply)
    requires C.Inv(a) && NodeRel(node, a, i)
    requires r.granted ==> C.VotedFor(a, peer, t, i)
    requires node.role == Candidate && node.currentTerm == t ==> peer in node.awaiting
    ensures Refined(OnVoteReply(node, peer, t, r), a, i)
  {
    hide C.Inv, C.Grows, NodeRel;
    Basics(node, a, i);
    MovedRefl(a, i);
    if node.role == Candidate && node.currentTerm == t {
      if r.term > node.currentTerm {
        var b := StepDownRefines(node, a, i, r.term);
      } else {
        TallyRefines(node, a, i, peer, r.granted);
        var m := node.(awaiting := node.awaiting - {peer},
                       votes := if r.granted then node.votes + 1 else node.votes);
        if r.granted && m.votes > |m.nextIndex| / 2 {
          ElectRefines(m, a, i);
        }
      }
    }
  }

  // ---------------------------------------------------------------- the leader

  lemma SubmitRefines(node: Node, a: C.State, i: nat, command: Command)
    requires C.Inv(a) && NodeRel(node, a, i) && node.role == Leader
    ensures |node.log| > 0
    ensures RefinedPlacing(Start(node, command).0, a, i, LastLogIndex(node) + 1, Entry(command, node.currentTerm))
  {
    var p := a.peers[i];
    var e := Entry(command, p.term);
    var b := C.Append(a, i, p.term, e);
    P.AppendKeeps(a, i, p.term, e);
    SubmitRel(node, a, i, command);
    assert Stepped(a, b, i) && Only(a, b, |p.log| + 1, e);
  }

  lemma SubmitRel(node: Node, a: C.State, i: nat, command: Command)
    requires NodeRel(node, a, i) && node.role == Leader
    ensures |node.log| > 0 && LastLogIndex(node) == |a.peers[i].log|
    ensures NodeRel(Start(node, command).0, C.Append(a, i, node.currentTerm, Entry(command, node.currentTerm)), i)
  {
    var log, e := a.peers[i].log, Entry(command, node.currentTerm);
    TrimAt(log, node.lastIncludedIndex, |log|);
    assert Trim(log + [e], node.lastIncludedIndex) == node.log + [e];
  }

  lemma ReplicateOk(node: Node, a: C.State, i: nat, peer: nat)
    requires C.Inv(a) && NodeRel(node, a, i) && node.role == Leader && peer < |a.peers|
    ensures 1 <= node.nextIndex[peer] <= LastLogIndex(node) + 1
    ensures match Replicate(node, i, peer)
            case SendAppend(args) => AppendArgsOk(args, a)
            case SendSnapshot(args) => SnapshotArgsOk(args, a)
  {
    var p := a.peers[i];
    var base := node.lastIncludedIndex;
    var next := node.nextIndex[peer];
    assert C.CommitOk(a, i);
    if next <= base {
      C.PrefixCommittedShorter(a, p.log[..p.commit], p.log[..base], p.term);
    } else {
      TrimAt(p.log, base, next - 1);
    }
  }

  /** Counting matchIndex over a majority commits in the protocol. */
  lemma CommitRefines(node: Node, a: C.State, i: nat)
    requires C.Inv(a) && NodeRel(node, a, i) && node.role == Leader
    ensures Refined(UpdateCommit(node, i), a, i)
  {
    var p := a.peers[i];
    var k := CommitScan(node, i, LastLogIndex(node));
    assert C.CommitOk(a, i);
    if k != node.commitIndex {
      TrimAt(p.log, node.lastIncludedIndex, k);
      var q := Replicas(node.matchIndex, i, k);
      LargerIsMajority(q, C.Ackers(a, p.term, k), |a.peers|);
      assert C.Within(a, p.log[..k], p.term, k);
    }
    var b := RaiseCommit(node, a, i, k);
  }

  /** A leader may record what a peer acknowledged, and retry anywhere in its log. */
  lemma MatchRel(node: Node, a: C.State, i: nat, peer: nat, m: nat, next: nat)
    requires NodeRel(node, a, i) && node.role == Leader && peer < |a.peers| && peer != i
    requires Acked(a, peer, node.currentTerm, m) && 1 <= next <= |a.peers[i].log| + 1
    ensures NodeRel(node.(matchIndex := node.matchIndex[peer := m], nextIndex := node.nextIndex[peer := next]), a, i)
  {
  }

  lemma AckedWithin(a: C.State, i: nat, peer: nat, t: nat, m: nat)
    requires C.Inv(a) && Acked(a, peer, t, m)
    ensures m <= |a.lead[t].log|
  {
    assert C.AckOk(a, peer) && C.AckTrue(a, peer, t);
  }

  lemma LeaderFacts(node: Node, a: C.State, i: nat, peer: nat)
    requires NodeRel(node, a, i) && node.role == Leader && peer < |a.peers| && peer != i
    ensures var t := node.currentTerm;
      t in a.lead && a.lead[t].log == a.peers[i].log && Acked(a, peer, t, node.matchIndex[peer])
  {
  }

  lemma AppendRepRefines(node: Node, a: C.State, i: nat, peer: nat, t: nat, prev: nat, count: nat,
                         r: AppendReply)
    requires C.Inv(a) && NodeRel(node, a, i) && peer < |a.peers| && peer != i
    requires AppendReplyOk(a, peer, t, prev + count, r)
    ensures Refined(OnAppendReply(node, i, peer, t, prev, count, r), a, i)
  {
    hide C.Inv, C.Grows, NodeRel;
    Basics(node, a, i);
    MovedRefl(a, i);
    if node.role == Leader && node.currentTerm == t {
      LeaderFacts(node, a, i, peer);
      if r.term > node.currentTerm {
        var b := StepDownRefines(node, a, i, r.term);
      } else if r.success {
        AckedWithin(a, i, peer, t, prev + count);
        MatchRel(node, a, i, peer, prev + count, prev + count + 1);
        CommitRefines(node.(matchIndex := node.matchIndex[peer := prev + count],
                            nextIndex := node.nextIndex[peer := prev + count + 1]), a, i);
      } else {
        MatchRel(node, a, i, peer, node.matchIndex[peer], Backup(node, r));
        assert node.matchIndex[peer := node.matchIndex[peer]] == node.matchIndex;
      }
    }
  }

  lemma InstallRepRefines(node: Node, a: C.State, i: nat, peer: nat, t: nat, k: nat, rt: nat)
    requires C.Inv(a) && NodeRel(node, a, i) && peer < |a.peers| && peer != i
    requires rt <= t ==> Acked(a, peer, t, k)
    ensures Refined(OnSnapshotReply(node, peer, t, k, rt), a, i)
  {
    hide C.Inv, C.Grows, NodeRel;
    Basics(node, a, i);
    MovedRefl(a, i);
    if node.role == Leader && node.currentTerm == t {
      LeaderFacts(node, a, i, peer);
      if rt > node.currentTerm {
        var b := StepDownRefines(node, a, i, rt);
      } else {
        var m := Higher(node.matchIndex[peer], k);
        AckedWithin(a, i, peer, t, m);
        MatchRel(node, a, i, peer, m, m + 1);
      }
    }
  }

  // ---------------------------------------------------------------- the follower

  /** Reading a compacted log under the relation. */
  lemma Reads(node: Node, a: C.State, i: nat, k: nat)
    requires NodeRel(node, a, i) && node.lastIncludedIndex <= k <= |a.peers[i].log|
    ensures |node.log| > 0 && LastLogIndex(node) == |a.peers[i].log|
    ensures node.log[k - node.lastIncludedIndex].term == TermAt(a.peers[i].log, k)
  {
    TrimAt(a.peers[i].log, node.lastIncludedIndex, k);
  }

  /** The commit index of a follower never passes the log of its leader. */
  lemma CommitWithinLead(a: C.State, i: nat, t: nat)
    requires C.Inv(a) && i < |a.peers| && a.peers[i].term <= t && t in a.lead
    ensures a.peers[i].commit <= |a.peers[i].log|
    ensures a.peers[i].log[..a.peers[i].commit] <= a.lead[t].log
  {
    assert C.CommitOk(a, i);
    C.CommittedInLead(a, a.peers[i].log[..a.peers[i].commit], a.peers[i].term, t);
  }

  /** Entries above the sentinel have positive terms. */
  lemma TermsPositive(a: C.State, log: seq<Entry>, k: nat)
    requires C.Inv(a) && C.Sound(a.lead, log) && 0 < k <= |log|
    ensures TermAt(log, k) > 0
  {
    assert C.RootedAt(a.lead, log, k - 1);
    var t := log[k - 1].term;
    assert C.LeadOk(a, t);
    assert C.CandOk(a, a.lead[t].leader, t);
  }

  /** Where a rejection points the leader stays within the leader's log. */
  lemma RejectInRange(node: Node, a: C.State, i: nat, args: AppendArgs)
    requires C.Inv(a) && NodeRel(node, a, i) && AppendArgsOk(args, a) && args.term == node.currentTerm
    requires !AppendEntries(node, args).1.success
    ensures 1 <= AppendEntries(node, args).1.conflictIndex <= |a.lead[args.term].log| + 1
  {
    var p := a.peers[i];
    var base := node.lastIncludedIndex;
    Reads(node, a, i, base);
    CommitWithinLead(a, i, args.term);
    if base <= args.prevLogIndex <= |p.log| {
      Reads(node, a, i, args.prevLogIndex);
      assert C.LogOk(a, i);
      if args.prevLogIndex > 0 && base == 0 {
        TermsPositive(a, p.log, args.prevLogIndex);
      }
    }
  }

  lemma LogsSound(a: C.State, i: nat, t: nat)
    requires C.Inv(a) && i < |a.peers| && t in a.lead
    ensures C.Sound(a.lead, a.peers[i].log) && C.Sound(a.lead, a.lead[t].log)
  {
    assert C.LogOk(a, i) && C.LeadOk(a, t);
  }

  /** The new log of a follower is the compacted form of the log it adopts. */
  lemma AcceptLog(n: Node, a: C.State, i: nat, args: AppendArgs)
    requires C.Inv(a) && NodeRel(n, a, i) && AppendArgsOk(args, a) && args.term == n.currentTerm
    requires n.lastIncludedIndex <= args.prevLogIndex <= |a.peers[i].log|
    requires TermAt(a.peers[i].log, args.prevLogIndex) == args.prevLogTerm
    ensures var m := args.prevLogIndex + |args.entries|;
            var log := C.Adopted(a.peers[i].log, a.lead[args.term].log[..m]);
            && |log| >= m >= n.lastIncludedIndex
            && log[..m] == a.lead[args.term].log[..m]
            && Splice(n.log, args.prevLogIndex - n.lastIncludedIndex + 1, args.entries)
               == Trim(log, n.lastIncludedIndex)
  {
    hide C.Inv;
    var p := a.peers[i];
    var top := a.lead[args.term].log;
    LogsSound(a, i, args.term);
    C.LogMatching(a, p.log, top, args.prevLogIndex);
    SpliceTrim(p.log, n.lastIncludedIndex, args.prevLogIndex, args.entries);
    SpliceAdopts(a, p.log, top, args.prevLogIndex, args.prevLogIndex + |args.entries|);
  }

  /** Adopting keeps what a server has committed, and changes nothing for the leader itself. */
  lemma AdoptFacts(a: C.State, i: nat, t: nat, m: nat, base: nat)
    requires C.Inv(a) && C.CanAdopt(a, i, t, m) && base <= a.peers[i].commit
    ensures var b := C.Adopt(a, i, t, m);
      var p, q := a.peers[i], b.peers[i];
      && Moved(a, b, i)
      && base <= q.commit <= |q.log| && base <= |p.log| && p.log[..base] == q.log[..base]
      && (a.lead[t].log == p.log ==> q.log == p.log)
      && (a.lead[t].log == p.log && C.Ack(p, t) == |p.log| ==> C.Ack(q, t) == |q.log|)
  {
    var b := C.Adopt(a, i, t, m);
    P.AdoptKeeps(a, i, t, m);
    P.AdoptCommitOk(a, i, t, m);
    var p, q := a.peers[i], b.peers[i];
    assert p.log[..base] == p.log[..p.commit][..base] == q.log[..p.commit][..base] == q.log[..base];
    assert C.CommitOk(b, i);
  }

  /** Adopting a leader's prefix, seen from a server that is not standing for election. */
  lemma AdoptRel(n: Node, n': Node, a: C.State, i: nat, t: nat, m: nat) returns (b: C.State)
    requires C.Inv(a) && NodeRel(n, a, i) && C.CanAdopt(a, i, t, m) && n.role != Candidate
    requires var log := C.Adopted(a.peers[i].log, a.lead[t].log[..m]);
             n.lastIncludedIndex <= |log| && n' == n.(log := Trim(log, n.lastIncludedIndex), persisted := n'.persisted)
    requires Load(n'.persisted) == Memory(n')
    ensures b == C.Adopt(a, i, t, m) && Moved(a, b, i) && NodeRel(n', b, i)
  {
    hide C.Inv, C.Grows, C.Adopted;
    b := C.Adopt(a, i, t, m);
    AdoptFacts(a, i, t, m, n.lastIncludedIndex);
    var base := n.lastIncludedIndex;
    assert base > 0 ==> a.peers[i].log[..base][base - 1] == b.peers[i].log[..base][base - 1];
  }

  lemma RaiseCommit(n: Node, a: C.State, i: nat, k: nat) returns (b: C.State)
    requires C.Inv(a) && NodeRel(n, a, i) && k <= |a.peers[i].log|
    requires C.PrefixCommitted(a, a.peers[i].log[..k], a.peers[i].term)
    ensures Moved(a, b, i) && NodeRel(n.(commitIndex := Higher(n.commitIndex, k)), b, i)
    ensures b == C.Advance(a, i, Higher(n.commitIndex, k))
  {
    assert C.CommitOk(a, i);
    b := C.Advance(a, i, Higher(n.commitIndex, k));
    P.AdvanceKeeps(a, i, Higher(n.commitIndex, k));
    AdvanceRel(n, a, i, Higher(n.commitIndex, k));
  }

  lemma AdvanceRel(n: Node, a: C.State, i: nat, k: nat)
    requires NodeRel(n, a, i) && n.lastApplied <= k <= |a.peers[i].log| && C.Grows(a, C.Advance(a, i, k))
    ensures NodeRel(n.(commitIndex := k), C.Advance(a, i, k), i)
  {
    hide C.Grows, Supporters, Trim;
    SupportersGrow(a, C.Advance(a, i, k), i, a.peers[i].term, n.awaiting);
  }

  lemma AcceptedRefines(n: Node, a: C.State, i: nat, args: AppendArgs) returns (b: C.State)
    requires C.Inv(a) && NodeRel(n, a, i) && AppendArgsOk(args, a) && args.term == n.currentTerm
    requires n.role != Candidate
    requires n.lastIncludedIndex <= args.prevLogIndex <= |a.peers[i].log|
    requires TermAt(a.peers[i].log, args.prevLogIndex) == args.prevLogTerm
    ensures n.lastIncludedIndex <= args.prevLogIndex <= n.lastIncludedIndex + |n.log| - 1
    ensures Moved(a, b, i) && NodeRel(Accepted(n, args), b, i) && b.lead == a.lead
    ensures Acked(b, i, args.term, args.prevLogIndex + |args.entries|)
    ensures var m := args.prevLogIndex + |args.entries|;
            |b.peers[i].log| >= m && b.peers[i].log[..m] == a.lead[args.term].log[..m]
  {
    hide C.Inv, C.Grows, NodeRel, Splice;
    Basics(n, a, i);
    Reads(n, a, i, args.prevLogIndex);
    AcceptLog(n, a, i, args);
    b := AdoptRel(n, Accepted(n, args), a, i, args.term, args.prevLogIndex + |args.entries|);
  }

  /** What the leader had committed when it sent the request is committed for the follower. */
  lemma LeaderCommitHolds(a: C.State, b: C.State, log: seq<Entry>, args: AppendArgs)
    requires C.Grows(a, b) && AppendArgsOk(args, a)
    requires var m := args.prevLogIndex + |args.entries|;
             |log| >= m && log[..m] == a.lead[args.term].log[..m]
    ensures var k := Min(args.leaderCommit, args.prevLogIndex + |args.entries|);
            C.PrefixCommitted(b, log[..k], args.term)
  {
    var m := args.prevLogIndex + |args.entries|;
    var top := a.lead[args.term].log;
    var k := Min(args.leaderCommit, m);
    assert log[..k] == log[..m][..k] == top[..m][..k] == top[..k];
    assert top[..k] <= top[..args.leaderCommit];
    C.PrefixCommittedShorter(a, top[..args.leaderCommit], top[..k], args.term);
    C.PrefixCommittedGrows(a, b, top[..k], args.term, args.term);
  }

  lemma AcceptRefines(n: Node, a: C.State, i: nat, args: AppendArgs)
    requires C.Inv(a) && NodeRel(n, a, i) && AppendArgsOk(args, a) && args.term == n.currentTerm
    requires n.role != Candidate
    requires n.lastIncludedIndex <= args.prevLogIndex <= |a.peers[i].log|
    requires TermAt(a.peers[i].log, args.prevLogIndex) == args.prevLogTerm
    ensures n.lastIncludedIndex <= args.prevLogIndex <= n.lastIncludedIndex + |n.log| - 1
    ensures RefinedAcked(Accept(n, args), a, i, args.term, args.prevLogIndex + |args.entries|)
  {
    hide C.Inv, C.Grows, NodeRel, C.PrefixCommitted, Splice;
    Basics(n, a, i);
    var c := AcceptedRefines(n, a, i, args);
    Basics(Accepted(n, args), c, i);
    LeaderCommitHolds(a, c, c.peers[i].log, args);
    var b := RaiseCommit(Accepted(n, args), c, i, Min(args.leaderCommit, args.prevLogIndex + |args.entries|));
    MovedTransitive(a, c, b, i);
  }

  /** The handler in two stages: recognise the term, then answer within it. */
  lemma AppendStages(node: Node, args: AppendArgs)
    requires |node.log| > 0 && args.term >= node.currentTerm
    ensures var n := Recognise(node, args.term);
            var r := AppendEntries(n, args);
            && AppendEntries(node, args) == r && n.currentTerm == args.term && n.role != Candidate
            && r.1.term == args.term
            && if r.1.success then
                 && n.lastIncludedIndex <= args.prevLogIndex <= LastLogIndex(n)
                 && n.log[args.prevLogIndex - n.lastIncludedIndex].term == args.prevLogTerm
                 && r.0 == Accept(n, args)
               else r.0 == n
  {
  }

  lemma AppendReqRefines(node: Node, a: C.State, i: nat, args: AppendArgs)
    requires C.Inv(a) && NodeRel(node, a, i) && AppendArgsOk(args, a)
    ensures exists b :: Moved(a, b, i) && NodeRel(AppendEntries(node, args).0, b, i)
                     && AppendReplyOk(b, i, args.term, args.prevLogIndex + |args.entries|,
                                      AppendEntries(node, args).1)
  {
    hide C.Inv, C.Grows, NodeRel;
    var b: C.State;
    Basics(node, a, i);
    if args.term < node.currentTerm {
      b := a;
      MovedRefl(a, i);
    } else {
      var n := Recognise(node, args.term);
      var c := RecogniseRefines(node, a, i, args.term);
      AppendArgsGrow(args, a, c);
      AppendStages(node, args);
      AnswerRefines(n, c, i, args);
      b :| Moved(c, b, i) && NodeRel(AppendEntries(n, args).0, b, i)
           && AppendReplyOk(b, i, args.term, args.prevLogIndex + |args.entries|, AppendEntries(n, args).1);
      MovedTransitive(a, c, b, i);
    }
    assert Moved(a, b, i);
  }

  lemma AnswerRefines(n: Node, a: C.State, i: nat, args: AppendArgs)
    requires C.Inv(a) && NodeRel(n, a, i) && AppendArgsOk(args, a)
    requires args.term == n.currentTerm && n.role != Candidate
    ensures exists b :: Moved(a, b, i) && NodeRel(AppendEntries(n, args).0, b, i)
                     && AppendReplyOk(b, i, args.term, args.prevLogIndex + |args.entries|, AppendEntries(n, args).1)
  {
    hide C.Inv, C.Grows, NodeRel, Splice;
    Basics(n, a, i);
    Reads(n, a, i, n.lastIncludedIndex);
    AppendStages(n, args);
    if AppendEntries(n, args).1.success {
      Reads(n, a, i, args.prevLogIndex);
      AcceptRefines(n, a, i, args);
      var m := args.prevLogIndex + |args.entries|;
      var b :| Moved(a, b, i) && NodeRel(Accept(n, args), b, i) && Acked(b, i, args.term, m);
      assert AppendReplyOk(b, i, args.term, m, AppendEntries(n, args).1);
    } else {
      MovedRefl(a, i);
      RejectInRange(n, a, i, args);
    }
  }

  // ---------------------------------------------------------------- snapshots

  /** Moving the base of a compacted log up to a committed index keeps the relation. */
  lemma RebaseRel(n: Node, a: C.State, i: nat, k: nat, data: Store)
    requires NodeRel(n, a, i) && n.lastIncludedIndex <= k <= n.commitIndex
    ensures NodeRel(Save(n.(log := Trim(a.peers[i].log, k), lastIncludedIndex := k,
                            lastIncludedTerm := TermAt(a.peers[i].log, k),
                            lastApplied := Higher(n.lastApplied, k)), data), a, i)
  {
  }

  lemma InstallRefines(n: Node, a: C.State, i: nat, args: SnapshotArgs)
    requires C.Inv(a) && NodeRel(n, a, i) && SnapshotArgsOk(args, a) && args.term == n.currentTerm
    requires n.role != Candidate && args.lastIncludedIndex > n.lastIncludedIndex
    ensures RefinedAcked(InstallSnapshot(n, args).0, a, i, args.term, args.lastIncludedIndex)
  {
    hide C.Inv, C.Grows, NodeRel;
    Basics(n, a, i);
    var k := args.lastIncludedIndex;
    var top := a.lead[args.term].log;
    LogsSound(a, i, args.term);
    DropAdopts(a, a.peers[i].log, n.lastIncludedIndex, top, k);
    var log := C.Adopted(a.peers[i].log, top[..k]);
    var n1 := Persist(n.(log := Trim(log, n.lastIncludedIndex)));
    var c := AdoptRel(n, n1, a, i, args.term, k);
    C.PrefixCommittedGrows(a, c, top[..k], args.term, args.term);
    var b := RaiseCommit(n1, c, i, k);
    MovedTransitive(a, c, b, i);
    var n2 := n1.(commitIndex := Higher(n.commitIndex, k));
    RebaseRel(n2, b, i, k, args.data);
    assert InstallSnapshot(n, args).0
        == Save(n2.(log := Trim(log, k), lastIncludedIndex := k, lastIncludedTerm := TermAt(log, k),
                    lastApplied := Higher(n.lastApplied, k)), args.data);
  }

  lemma InstallReqRefines(node: Node, a: C.State, i: nat, args: SnapshotArgs)
    requires C.Inv(a) && NodeRel(node, a, i) && SnapshotArgsOk(args, a)
    ensures exists b :: Moved(a, b, i) && NodeRel(InstallSnapshot(node, args).0, b, i)
                     && (InstallSnapshot(node, args).1 <= args.term ==>
                           Acked(b, i, args.term, args.lastIncludedIndex))
  {
    hide C.Inv, C.Grows, NodeRel;
    var b: C.State;
    Basics(node, a, i);
    if args.term < node.currentTerm {
      b := a;
      MovedRefl(a, i);
    } else {
      var n := Recognise(node, args.term);
      var c := RecogniseRefines(node, a, i, args.term);
      SnapshotArgsGrow(args, a, c);
      assert InstallSnapshot(node, args).0 == InstallSnapshot(n, args).0;
      if args.lastIncludedIndex > n.lastIncludedIndex {
        InstallRefines(n, c, i, args);
      } else {
        AlreadyCovered(n, c, i, args);
      }
      b :| Moved(c, b, i) && NodeRel(InstallSnapshot(n, args).0, b, i)
           && Acked(b, i, args.term, args.lastIncludedIndex);
      MovedTransitive(a, c, b, i);
    }
    assert Moved(a, b, i);
  }

  /** A snapshot that the follower's own snapshot covers is acknowledged without effect. */
  lemma AlreadyCovered(n: Node, a: C.State, i: nat, args: SnapshotArgs)
    requires C.Inv(a) && NodeRel(n, a, i) && SnapshotArgsOk(args, a) && args.term == n.currentTerm
    requires n.role != Candidate && args.lastIncludedIndex <= n.lastIncludedIndex
    ensures RefinedAcked(n, a, i, args.term, args.lastIncludedIndex)
  {
    CommitWithinLead(a, i, args.term);
    var p := a.peers[i];
    var m := a.lead[args.term].log[..args.lastIncludedIndex];
    assert m == p.log[..p.commit][..args.lastIncludedIndex];
    var b := AdoptRel(n, n, a, i, args.term, args.lastIncludedIndex);
  }

  lemma CompactRefines(node: Node, a: C.State, i: nat, index: nat, data: Store)
    requires NodeRel(node, a, i) && index <= node.lastApplied
    ensures |node.log| > 0 && index <= LastLogIndex(node)
    ensures NodeRel(RaftNode.Snapshot(node, index, data), a, i)
  {
    Reads(node, a, i, node.lastIncludedIndex);
    if node.lastIncludedIndex < index {
      var log := a.peers[i].log;
      TrimAt(log, node.lastIncludedIndex, index);
      RebaseRel(node, a, i, index, data);
    }
  }

  lemma CrashRefines(node: Node, a: C.State, i: nat)
    requires C.Inv(a) && NodeRel(node, a, i)
    ensures Refined(Restart(node), a, i)
  {
    var p := a.peers[i];
    assert C.CommitOk(a, i);
    C.PrefixCommittedShorter(a, p.log[..p.commit], p.log[..node.lastIncludedIndex], p.term);
    var b := C.Advance(a, i, node.lastIncludedIndex);
    P.AdvanceKeeps(a, i, node.lastIncludedIndex);
    assert Moved(a, b, i);
  }
}
