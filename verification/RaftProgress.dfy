/** What servers have to do: the votes they owe, the entries they send, the index they commit.
    Safety alone would allow a server that refuses everything. */
module RaftProgress {
  import opened KvStore
  import opened Quorum
  import opened RaftLog
  import opened RaftNode
  import opened Cluster
  import C = Consensus
  import opened Refinement
  import opened Handlers
  import opened ClusterProof
  import opened RaftSafety

  // ---------------------------------------------------------------- votes

  /** A candidate that stood with the full log `mine` gets the vote of a server with the full
      log `yours`: its term is not older, the vote is free or already its own, and its log ends
      in a later term, or in the same term and is not shorter. */
  predicate Deserves(node: Node, term: nat, candidate: nat, mine: seq<Entry>, yours: seq<Entry>) {
    && node.currentTerm <= term
    && (node.currentTerm == term ==> node.votedFor == -1 || node.votedFor == candidate)
    && (|| LastTerm(yours) < LastTerm(mine)
        || (LastTerm(yours) == LastTerm(mine) && |yours| <= |mine|))
  }

  /** A vote is given exactly when it is deserved, and then it is on disk; the answer carries
      the voter's term, which is the request's if that is later. */
  lemma VoteExactly(run: seq<State>, h: seq<C.State>, i: nat, m: Message)
    requires History(run, h) && At(run, i, m.dst) && m in run[i].net && m.VoteReq?
    ensures |run[i].nodes[m.dst].log| > 0 && m.dst < |h[i].peers|
    ensures m.src < |h[i].peers| && m.vote.term in h[i].peers[m.src].cand
    ensures var node, t := run[i].nodes[m.dst], m.vote.term;
      var (n, out) := Receive(node, m);
      var given := Deserves(node, t, m.src, h[i].peers[m.src].cand[t], Full(h, i, m.dst));
      && out == {VoteRep(m.dst, m.src, t, VoteReply(n.currentTerm, given))}
      && n.currentTerm == Higher(node.currentTerm, t)
      && Load(n.persisted).votedFor == n.votedFor
         == (if given then m.src else if node.currentTerm < t then -1 else node.votedFor)
  {
    hide C.Inv, C.Grows;
    Moment(run, h, i, m.dst);
    assert MessageOk(h[i], m);
    var node := run[i].nodes[m.dst];
    TrimAt(Full(h, i, m.dst), node.lastIncludedIndex, |Full(h, i, m.dst)|);
  }

  /** In particular, a candidate of a later term whose log extends the voter's is never refused. */
  lemma VoteIsGiven(run: seq<State>, h: seq<C.State>, i: nat, m: Message)
    requires History(run, h) && At(run, i, m.dst) && m in run[i].net && m.VoteReq?
    requires m.src < |h[i].peers| && m.vote.term in h[i].peers[m.src].cand && m.dst < |h[i].peers|
    requires run[i].nodes[m.dst].currentTerm < m.vote.term
    requires Full(h, i, m.dst) <= h[i].peers[m.src].cand[m.vote.term]
    ensures |run[i].nodes[m.dst].log| > 0
    ensures var (n, out) := Receive(run[i].nodes[m.dst], m);
      && out == {VoteRep(m.dst, m.src, m.vote.term, VoteReply(m.vote.term, true))}
      && n.votedFor == m.src && n.currentTerm == m.vote.term
  {
    VoteExactly(run, h, i, m);
    var mine, yours := h[i].peers[m.src].cand[m.vote.term], Full(h, i, m.dst);
    Moment(run, h, i, m.dst);
    assert C.CandOk(h[i], m.src, m.vote.term);
    if yours != [] {
      C.TermsOrdered(h[i], mine, |yours| - 1, |mine| - 1);
    }
  }

  /** A server that stands asks every other server, with its new term and its last entry. */
  lemma AsksEveryone(run: seq<State>, h: seq<C.State>, i: nat, p: nat, q: nat)
    requires History(run, h) && At(run, i, p) && At(run, i, q) && p != q && run[i].nodes[p].role != Leader
    ensures Enabled(run[i], Timeout(p)) && InRange(run[i], Timeout(p)) && p < |h[i].peers|
    ensures var s, t := Step(run[i], Timeout(p)), run[i].nodes[p].currentTerm + 1;
      && s.nodes[p].currentTerm == t && s.nodes[p].role == Candidate && s.nodes[p].votedFor == p
      && q in s.nodes[p].awaiting
      && VoteReq(p, q, VoteArgs(t, p, |Full(h, i, p)|, LastTerm(Full(h, i, p)))) in s.net
  {
    hide C.Inv, C.Grows;
    Moment(run, h, i, p);
    TrimAt(Full(h, i, p), run[i].nodes[p].lastIncludedIndex, |Full(h, i, p)|);
    var args := VoteRequest(StartElection(run[i].nodes[p], p), p);
    assert VoteReq(p, q, args) in Ballots(p, |run[i].nodes|, args);
  }

  /** A candidate after some peers have granted their votes. */
  function Granted(node: Node, peers: seq<nat>): Node
    requires |node.log| > 0
    ensures |Granted(node, peers).log| > 0
  {
    if peers == [] then node
    else
      var n := Granted(node, peers[..|peers| - 1]);
      OnVoteReply(n, peers[|peers| - 1], n.currentTerm, VoteReply(n.currentTerm, true))
  }

  /** With its own vote a majority makes it leader, one vote less does not, and neither does its
      own vote alone, which is a majority of one; a new leader starts right above its log, for
      every peer. */
  lemma {:induction false} MajorityElects(node: Node, me: nat, peers: seq<nat>)
    requires |node.log| > 0 && |node.nextIndex| == |node.matchIndex| && me < |node.nextIndex|
    requires forall k | 0 <= k < |peers| :: peers[k] < |node.nextIndex| && peers[k] != me
    requires forall k, l | 0 <= k < l < |peers| :: peers[k] != peers[l]
    ensures var n := Granted(StartElection(node, me), peers);
      && n.currentTerm == node.currentTerm + 1
      && (n.role == Leader <==> peers != [] && 2 * (|peers| + 1) > |node.nextIndex|)
      && (n.role == Leader ==> n.nextIndex == seq(|node.nextIndex|, _ => LastLogIndex(node) + 1)
                               && n.matchIndex == seq(|node.nextIndex|, _ => 0))
      && (n.role != Leader ==> n.role == Candidate && n.votes == |peers| + 1
                               && forall q: nat | q < |node.nextIndex| && q != me && q !in peers :: q in n.awaiting)
    decreases |peers|
  {
    if peers != [] {
      var k := |peers| - 1;
      MajorityElects(node, me, peers[..k]);
      var n := Granted(StartElection(node, me), peers[..k]);
      GrantedLog(StartElection(node, me), peers[..k]);
      assert forall q: nat | q !in peers :: q !in peers[..k];
    }
  }

  lemma {:induction false} GrantedLog(node: Node, peers: seq<nat>)
    requires |node.log| > 0
    ensures var n := Granted(node, peers);
      n.log == node.log && n.lastIncludedIndex == node.lastIncludedIndex
      && |n.nextIndex| == |node.nextIndex| && |n.matchIndex| == |node.matchIndex|
  {
    if peers != [] {
      GrantedLog(node, peers[..|peers| - 1]);
    }
  }

  // ---------------------------------------------------------------- entries

  /** A leader accepts a command at the end of its log; another server does not. */
  lemma StartExactly(run: seq<State>, h: seq<C.State>, i: nat, p: nat, command: Command)
    requires History(run, h) && At(run, i, p)
    ensures |run[i].nodes[p].log| > 0 && p < |h[i].peers|
    ensures var node := run[i].nodes[p];
      var (n, r) := Start(node, command);
      if node.role == Leader then
        && r == Started(|Full(h, i, p)| + 1, node.currentTerm)
        && n.log == Trim(Full(h, i, p) + [Entry(command, node.currentTerm)], node.lastIncludedIndex)
        && Load(n.persisted) == Memory(n)
      else r == NotLeader && n == node
  {
    hide C.Inv, C.Grows;
    Moment(run, h, i, p);
    var node, e := run[i].nodes[p], Entry(command, run[i].nodes[p].currentTerm);
    TrimAt(Full(h, i, p), node.lastIncludedIndex, |Full(h, i, p)|);
    assert Trim(Full(h, i, p) + [e], node.lastIncludedIndex) == node.log + [e];
  }

  /** A leader sends everything from nextIndex on, with its commit index; its snapshot exactly
      when it has compacted what comes first. */
  lemma SendsAll(run: seq<State>, h: seq<C.State>, i: nat, p: nat, q: nat)
    requires History(run, h) && At(run, i, p) && At(run, i, q) && p != q && run[i].nodes[p].role == Leader
    ensures Enabled(run[i], Send(p, q)) && InRange(run[i], Send(p, q)) && p < |h[i].peers|
    ensures var node, log := run[i].nodes[p], Full(h, i, p);
      var next := node.nextIndex[q];
      && 1 <= next <= |log| + 1 && node.lastIncludedIndex <= |log|
      && (if next <= node.lastIncludedIndex then
            InstallReq(p, q, SnapshotArgs(node.currentTerm, p, node.lastIncludedIndex,
                                          TermAt(log, node.lastIncludedIndex), node.snapshot))
          else
            AppendReq(p, q, AppendArgs(node.currentTerm, p, next - 1, TermAt(log, next - 1), log[next - 1..],
                                       node.commitIndex)))
         in Step(run[i], Send(p, q)).net
  {
    hide C.Inv, C.Grows;
    Moment(run, h, i, p);
    assert Follows(run[i], h[i]);
    NoPanic(run[i], h[i], Send(p, q));
    var node := run[i].nodes[p];
    Reads(node, h[i], p, node.lastIncludedIndex);
    if node.nextIndex[q] > node.lastIncludedIndex {
      TrimAt(Full(h, i, p), node.lastIncludedIndex, node.nextIndex[q] - 1);
    }
  }

  /** The servers that hold index `k` as far as the leader knows, the leader among them. */
  ghost function Holders(node: Node, me: nat, k: nat): set<nat> {
    set q: nat | q < |node.matchIndex| && (q == me || k <= node.matchIndex[q])
  }

  lemma {:induction false} ScanFinds(node: Node, me: nat, n: nat, k: nat)
    requires node.lastIncludedIndex <= node.commitIndex < k <= n
    requires |node.log| > 0 && n <= LastLogIndex(node)
    requires forall j | k - node.lastIncludedIndex <= j <= n - node.lastIncludedIndex ::
      node.log[j].term == node.currentTerm
    requires Majority(Holders(node, me, k), |node.matchIndex|)
    ensures k <= CommitScan(node, me, n)
    decreases n
  {
    assert Replicas(node.matchIndex, me, k) == Holders(node, me, k);
    if k < n {
      ScanFinds(node, me, n - 1, k);
    }
  }

  /** A success reply to the leader of the current term is recorded, and then every entry of the
      current term that a majority holds is committed; no other index is. */
  lemma CommitsAll(run: seq<State>, h: seq<C.State>, i: nat, m: Message, k: nat)
    requires History(run, h) && At(run, i, m.dst) && m in run[i].net && m.AppendRep? && m.appendReply.success
    requires run[i].nodes[m.dst].role == Leader && run[i].nodes[m.dst].currentTerm == m.term >= m.appendReply.term
    ensures Enabled(run[i], Deliver(m)) && InRange(run[i], Deliver(m)) && m.dst < |h[i].peers|
    ensures var node, n, log := run[i].nodes[m.dst], Step(run[i], Deliver(m)).nodes[m.dst], Full(h, i, m.dst);
      && n.matchIndex == node.matchIndex[m.src := m.prev + m.count]
      && n.nextIndex == node.nextIndex[m.src := m.prev + m.count + 1]
      && n.role == Leader && n.currentTerm == node.currentTerm
      && node.commitIndex <= n.commitIndex <= |log|
      && (0 < k <= |log| && TermAt(log, k) == node.currentTerm && Majority(Holders(n, m.dst, k), |n.matchIndex|) ==>
            k <= n.commitIndex)
      && (n.commitIndex > node.commitIndex ==>
            TermAt(log, n.commitIndex) == node.currentTerm && Majority(Holders(n, m.dst, n.commitIndex), |n.matchIndex|))
  {
    hide C.Inv, C.Grows;
    var p := m.dst;
    Moment(run, h, i, p);
    assert Follows(run[i], h[i]);
    NoPanic(run[i], h[i], Deliver(m));
    var node, log := run[i].nodes[p], Full(h, i, p);
    var n := node.(matchIndex := node.matchIndex[m.src := m.prev + m.count],
                   nextIndex := node.nextIndex[m.src := m.prev + m.count + 1]);
    CommitsHeld(n, h[i], p, k);
  }

  /** The commit rule, on the full log. */
  lemma CommitsHeld(n: Node, a: C.State, p: nat, k: nat)
    requires C.Inv(a) && LogRelated(n, a, p)
    ensures |n.log| > 0 && n.lastIncludedIndex <= n.commitIndex
    ensures var c, log := UpdateCommit(n, p).commitIndex, a.peers[p].log;
      && n.commitIndex <= c <= |log|
      && (0 < k <= |log| && TermAt(log, k) == n.currentTerm && Majority(Holders(n, p, k), |n.matchIndex|) ==> k <= c)
      && (c > n.commitIndex ==> TermAt(log, c) == n.currentTerm && Majority(Holders(n, p, c), |n.matchIndex|))
  {
    hide C.Inv, CommitScan;
    var log, base := a.peers[p].log, n.lastIncludedIndex;
    TrimAt(log, base, |log|);
    var c := UpdateCommit(n, p).commitIndex;
    if c > n.commitIndex {
      TrimAt(log, base, c);
      assert Replicas(n.matchIndex, p, c) == Holders(n, p, c);
    }
    if n.commitIndex < k <= |log| && TermAt(log, k) == n.currentTerm && Majority(Holders(n, p, k), |n.matchIndex|) {
      TermToEnd(a, n, p, k);
      ScanFinds(n, p, |log|, k);
    }
  }

  /** Above an entry of the current term there are only such. */
  lemma TermToEnd(a: C.State, n: Node, p: nat, k: nat)
    requires C.Inv(a) && LogRelated(n, a, p) && n.commitIndex < k <= |a.peers[p].log|
    requires TermAt(a.peers[p].log, k) == n.currentTerm
    ensures forall j | k - n.lastIncludedIndex <= j < |n.log| :: n.log[j].term == n.currentTerm
  {
    var log, base := a.peers[p].log, n.lastIncludedIndex;
    assert C.LogOk(a, p);
    TrimAt(log, base, |log|);
    forall j | k - base <= j < |n.log| ensures n.log[j].term == n.currentTerm {
      TrimAt(log, base, j + base);
      C.TermsOrdered(a, log, k - 1, j + base - 1);
    }
  }

  ghost predicate LogRelated(n: Node, a: C.State, p: nat) {
    p < |a.peers| && |n.nextIndex| == |n.matchIndex| && LogRel(n, a, p)
  }

  /** Everything committed is handed over, in one round of the applier. */
  lemma AppliesAll(run: seq<State>, h: seq<C.State>, i: nat, p: nat, k: nat)
    requires History(run, h) && At(run, i, p)
    requires run[i].nodes[p].lastApplied < k <= run[i].nodes[p].commitIndex
    ensures Enabled(run[i], Apply(p)) && InRange(run[i], Apply(p)) && p < |h[i].peers| && k <= |Full(h, i, p)|
    ensures var s := Step(run[i], Apply(p));
      s.nodes[p].lastApplied == run[i].nodes[p].commitIndex && Applied(p, k, Full(h, i, p)[k - 1].command) in s.applied
  {
    hide C.Inv, C.Grows;
    Moment(run, h, i, p);
    assert Follows(run[i], h[i]);
    NoPanic(run[i], h[i], Apply(p));
    var node := run[i].nodes[p];
    TrimAt(Full(h, i, p), node.lastIncludedIndex, k);
    assert Batch(node)[k - 1 - node.lastApplied] == Full(h, i, p)[k - 1];
  }

  // ---------------------------------------------------------------- snapshots

  /** Snapshot drops exactly what it covers, and saves the data with the image. */
  lemma SnapshotExactly(run: seq<State>, h: seq<C.State>, i: nat, p: nat, index: nat, data: Store)
    requires History(run, h) && At(run, i, p) && index <= run[i].nodes[p].lastApplied
    ensures Enabled(run[i], Compact(p, index, data)) && InRange(run[i], Compact(p, index, data)) && p < |h[i].peers|
    ensures var node, n := run[i].nodes[p], Step(run[i], Compact(p, index, data)).nodes[p];
      if node.lastIncludedIndex < index then
        && index <= |Full(h, i, p)| && n.lastIncludedIndex == index && n.snapshot == data
        && n.log == Trim(Full(h, i, p), index) && Load(n.persisted) == Memory(n)
      else n == node
  {
    hide C.Inv, C.Grows;
    Moment(run, h, i, p);
    assert Follows(run[i], h[i]);
    NoPanic(run[i], h[i], Compact(p, index, data));
    var node := run[i].nodes[p];
    if node.lastIncludedIndex < index {
      TrimAt(Full(h, i, p), node.lastIncludedIndex, index);
    }
  }

  /** A follower that acknowledges a snapshot is counted up to it and sent what comes next. */
  lemma InstallRecorded(run: seq<State>, h: seq<C.State>, i: nat, m: Message)
    requires History(run, h) && At(run, i, m.dst) && m in run[i].net && m.InstallRep?
    requires run[i].nodes[m.dst].role == Leader && run[i].nodes[m.dst].currentTerm == m.term >= m.replyTerm
    ensures Enabled(run[i], Deliver(m)) && InRange(run[i], Deliver(m))
    ensures var node, n := run[i].nodes[m.dst], Step(run[i], Deliver(m)).nodes[m.dst];
      var k := Higher(node.matchIndex[m.src], m.included);
      n == node.(matchIndex := node.matchIndex[m.src := k], nextIndex := node.nextIndex[m.src := k + 1])
  {
    Moment(run, h, i, m.dst);
    assert Follows(run[i], h[i]);
    NoPanic(run[i], h[i], Deliver(m));
  }

  // ---------------------------------------------------------------- terms

  function TermOf(m: Message): nat {
    match m
    case VoteReq(_, _, args) => args.term
    case VoteRep(_, _, _, r) => r.term
    case AppendReq(_, _, args) => args.term
    case AppendRep(_, _, _, _, _, r) => r.term
    case InstallReq(_, _, args) => args.term
    case InstallRep(_, _, _, _, t) => t
  }

  /** A reply is stale when its sender is no longer in the election or the reign it answers. */
  predicate Stale(node: Node, m: Message) {
    || (m.VoteRep? && (node.role != Candidate || node.currentTerm != m.term))
    || ((m.AppendRep? || m.InstallRep?) && (node.role != Leader || node.currentTerm != m.term))
  }

  /** A later term is adopted from every message that is not stale, and ends a reign or a
      candidacy; a stale reply changes nothing. */
  lemma LaterTermAdopted(node: Node, m: Message)
    requires |node.log| > 0
    requires m.AppendRep? || m.InstallRep? ==>
      m.src < |node.nextIndex| == |node.matchIndex| && node.lastIncludedIndex <= node.commitIndex
    ensures Stale(node, m) ==> Receive(node, m).0 == node
    ensures !Stale(node, m) && TermOf(m) > node.currentTerm ==>
      Receive(node, m).0.currentTerm == TermOf(m) && Receive(node, m).0.role == Follower
  {
    hide Splice, RunStart, DropPrefix;
  }

  /** A request of an earlier term is refused with the later term, and changes nothing. */
  lemma EarlierTermRefused(node: Node, m: Message)
    requires |node.log| > 0 && (m.VoteReq? || m.AppendReq? || m.InstallReq?) && TermOf(m) < node.currentTerm
    ensures Receive(node, m).0 == node
    ensures forall r | r in Receive(node, m).1 ::
      && TermOf(r) == node.currentTerm && r.dst == m.src
      && !(r.VoteRep? && r.voteReply.granted) && !(r.AppendRep? && r.appendReply.success)
    ensures |Receive(node, m).1| == 1
  {
  }
}
