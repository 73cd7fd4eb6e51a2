/** How a compacted server relates to the full-log protocol, and why every handler keeps it.

    `NodeRel` ties a server to its peer in a state of the protocol: the compacted log is the
    upper part of the peer's log, term and vote are those of the peer, what is on disk is what
    is in memory, the vote counter of a candidate is covered by votes that were cast, and what a
    leader believes of the others was acknowledged. The `Ok` predicates say the same of
    messages. Both survive whatever other servers do, because the history only grows. The rest
    of the module is about logs: the append loop and the installation of a snapshot, on the
    compacted log, come to what the protocol does on the full one. */
module Refinement {
  import opened Quorum
  import opened RaftLog
  import opened RaftNode
  import C = Consensus
  import opened P = ConsensusProof

  // ---------------------------------------------------------------- the relation

  /** Indices, term and the compacted log. */
  ghost predicate LogRel(node: Node, a: C.State, i: nat)
    requires i < |a.peers|
  {
    var p := a.peers[i];
    && node.currentTerm == p.term
    && node.lastIncludedIndex <= node.lastApplied <= node.commitIndex == p.commit <= |p.log|
    && node.log == Trim(p.log, node.lastIncludedIndex)
    && node.lastIncludedTerm == TermAt(p.log, node.lastIncludedIndex)
    && |node.nextIndex| == |node.matchIndex| == |a.peers|
  }

  ghost predicate VoteRel(node: Node, a: C.State, i: nat)
    requires i < |a.peers|
  {
    var p := a.peers[i];
    if node.votedFor == -1 then p.term !in p.vote
    else 0 <= node.votedFor < |a.peers| && p.term in p.vote && p.vote[p.term] == node.votedFor
  }

  ghost function Supporters(a: C.State, i: nat, t: nat): set<nat> {
    set v: nat | v < |a.peers| && C.VotedFor(a, v, t, i)
  }

  ghost predicate CandRel(node: Node, a: C.State, i: nat)
    requires i < |a.peers|
  {
    var p := a.peers[i];
    node.role == Candidate ==>
      && p.term in p.cand && p.cand[p.term] == p.log
      && node.votes <= |Supporters(a, i, p.term) - node.awaiting|
      && !(p.term in a.lead && a.lead[p.term].leader == i)
  }

  ghost predicate LeadRel(node: Node, a: C.State, i: nat)
    requires i < |a.peers| && |node.nextIndex| == |node.matchIndex| == |a.peers|
  {
    var p := a.peers[i];
    node.role == Leader ==>
      && p.term in a.lead && a.lead[p.term].leader == i && a.lead[p.term].log == p.log
      && C.Ack(p, p.term) == |p.log|
      && (forall q: nat | q < |a.peers| && q != i :: node.matchIndex[q] <= C.Ack(a.peers[q], p.term))
      && (forall q: nat | q < |a.peers| :: 1 <= node.nextIndex[q] <= |p.log| + 1)
  }

  ghost predicate NodeRel(node: Node, a: C.State, i: nat) {
    && i < |a.peers|
    && LogRel(node, a, i) && VoteRel(node, a, i)
    && CandRel(node, a, i) && LeadRel(node, a, i)
    && Load(node.persisted) == Memory(node)
  }

  ghost predicate VoteArgsOk(args: VoteArgs, a: C.State) {
    && args.candidateId < |a.peers| && args.term in a.peers[args.candidateId].cand
    && var log := a.peers[args.candidateId].cand[args.term];
       args.lastLogIndex == |log| && args.lastLogTerm == LastTerm(log)
  }

  ghost predicate AppendArgsOk(args: AppendArgs, a: C.State) {
    && args.term in a.lead
    && var top := a.lead[args.term].log;
       var m := args.prevLogIndex + |args.entries|;
    && m <= |top|
    && args.prevLogTerm == TermAt(top, args.prevLogIndex)
    && args.entries == top[args.prevLogIndex..m]
    && args.leaderCommit <= |top|
    && C.PrefixCommitted(a, top[..args.leaderCommit], args.term)
  }

  ghost predicate SnapshotArgsOk(args: SnapshotArgs, a: C.State) {
    && args.term in a.lead
    && var top := a.lead[args.term].log;
    && 0 < args.lastIncludedIndex <= |top|
    && args.lastIncludedTerm == TermAt(top, args.lastIncludedIndex)
    && C.PrefixCommitted(a, top[..args.lastIncludedIndex], args.term)
  }

  /** A reply in the request's own term is truthful about the follower. */
  ghost predicate AppendReplyOk(a: C.State, src: nat, t: nat, m: nat, r: AppendReply) {
    r.term <= t ==>
      && src < |a.peers| && t in a.lead
      && (if r.success then m <= C.Ack(a.peers[src], t)
          else 1 <= r.conflictIndex <= |a.lead[t].log| + 1)
  }

  ghost predicate Acked(a: C.State, src: nat, t: nat, m: nat) {
    src < |a.peers| && t in a.lead && m <= C.Ack(a.peers[src], t)
  }

  /** Protocol steps of server `i` lead from `a` to `b`. */
  ghost predicate Stepped(a: C.State, b: C.State, i: nat) {
    C.Inv(b) && C.Grows(a, b) && Local(a, b, i)
  }

  /** ... and place no entry. */
  ghost predicate Moved(a: C.State, b: C.State, i: nat) {
    Stepped(a, b, i) && forall k: nat, e | C.Has(b.lead, k, e) :: C.Has(a.lead, k, e)
  }

  /** Server `i` may become `n`: protocol steps of `i` lead there. */
  ghost predicate Refined(n: Node, a: C.State, i: nat) {
    exists b :: Moved(a, b, i) && NodeRel(n, b, i)
  }

  /** ... and there it has acknowledged `m` entries of the leader of `t`. */
  ghost predicate RefinedAcked(n: Node, a: C.State, i: nat, t: nat, m: nat) {
    exists b :: Moved(a, b, i) && NodeRel(n, b, i) && Acked(b, i, t, m)
  }

  /** The only entry that `b` may have over `a` is `e`, at index `k`. */
  ghost predicate Only(a: C.State, b: C.State, k: nat, e: Entry) {
    forall j: nat, x | C.Has(b.lead, j, x) :: C.Has(a.lead, j, x) || (j == k && x == e)
  }

  /** Server `i` may become `n` by placing `e` at index `k`. */
  ghost predicate RefinedPlacing(n: Node, a: C.State, i: nat, k: nat, e: Entry) {
    exists b :: Stepped(a, b, i) && NodeRel(n, b, i) && Only(a, b, k, e)
  }

  lemma MovedTransitive(a: C.State, b: C.State, c: C.State, i: nat)
    requires Moved(a, b, i) && Moved(b, c, i)
    ensures Moved(a, c, i)
  {
    C.GrowsTransitive(a, b, c);
  }

  lemma MovedRefl(a: C.State, i: nat)
    requires C.Inv(a) && i < |a.peers|
    ensures Moved(a, a, i)
  {
  }

  // ---------------------------------------------------------------- stability

  lemma SupportersGrow(a: C.State, b: C.State, i: nat, t: nat, w: set<nat>)
    requires C.Grows(a, b)
    ensures |Supporters(a, i, t) - w| <= |Supporters(b, i, t) - w|
  {
    forall v | v in Supporters(a, i, t) ensures v in Supporters(b, i, t) {
      assert C.PeerGrows(a.peers[v], b.peers[v]);
    }
    SubsetCard(Supporters(a, i, t) - w, Supporters(b, i, t) - w);
  }

  /** A server that did not move still fits its own history. */
  lemma OtherKeeps(node: Node, a: C.State, b: C.State, i: nat, j: nat)
    requires NodeRel(node, a, j) && Stepped(a, b, i) && i != j
    ensures NodeRel(node, b, j)
  {
    SupportersGrow(a, b, j, a.peers[j].term, node.awaiting);
    assert C.ReignGrows(a.lead, b.lead, a.peers[j].term);
    forall q: nat | q < |a.peers| ensures C.Ack(a.peers[q], a.peers[j].term) <= C.Ack(b.peers[q], a.peers[j].term) {
      assert C.PeerGrows(a.peers[q], b.peers[q]);
    }
  }

  lemma VoteArgsGrow(args: VoteArgs, a: C.State, b: C.State)
    requires VoteArgsOk(args, a) && C.Grows(a, b)
    ensures VoteArgsOk(args, b)
  {
    assert C.PeerGrows(a.peers[args.candidateId], b.peers[args.candidateId]);
  }

  lemma AppendArgsGrow(args: AppendArgs, a: C.State, b: C.State)
    requires AppendArgsOk(args, a) && C.Grows(a, b)
    ensures AppendArgsOk(args, b)
  {
    assert C.ReignGrows(a.lead, b.lead, args.term);
    var top, up := a.lead[args.term].log, b.lead[args.term].log;
    assert up[..args.leaderCommit] == top[..args.leaderCommit];
    C.PrefixCommittedGrows(a, b, top[..args.leaderCommit], args.term, args.term);
  }

  lemma SnapshotArgsGrow(args: SnapshotArgs, a: C.State, b: C.State)
    requires SnapshotArgsOk(args, a) && C.Grows(a, b)
    ensures SnapshotArgsOk(args, b)
  {
    assert C.ReignGrows(a.lead, b.lead, args.term);
    var top, up := a.lead[args.term].log, b.lead[args.term].log;
    assert up[..args.lastIncludedIndex] == top[..args.lastIncludedIndex];
    C.PrefixCommittedGrows(a, b, top[..args.lastIncludedIndex], args.term, args.term);
  }

  // ---------------------------------------------------------------- compaction

  lemma TrimAt(log: seq<Entry>, base: nat, k: nat)
    requires base <= k <= |log|
    ensures |Trim(log, base)| == |log| - base + 1
    ensures Trim(log, base)[k - base].term == TermAt(log, k)
    ensures base < k ==> Trim(log, base)[k - base] == log[k - 1]
    ensures Trim(log, base)[k - base + 1..] == log[k..]
  {
  }

  /** Appending to a compacted log is compacting the appended full log. */
  lemma {:induction false} SpliceTrim(full: seq<Entry>, base: nat, prev: nat, entries: seq<Entry>)
    requires base <= prev <= |full|
    ensures |Splice(full, prev, entries)| >= prev
    ensures Splice(full, prev, entries)[..prev] == full[..prev]
    ensures Splice(Trim(full, base), prev - base + 1, entries) == Trim(Splice(full, prev, entries), base)
    decreases |entries|
  {
    if entries != [] {
      var t := Trim(full, base);
      var at := prev - base + 1;
      if prev < |full| && full[prev].term == entries[0].term {
        SpliceTrim(full, base, prev + 1, entries[1..]);
        assert Splice(full, prev, entries)[..prev] == Splice(full, prev, entries)[..prev + 1][..prev];
      } else {
        var g := full[..prev] + [entries[0]];
        SpliceTrim(g, base, prev + 1, entries[1..]);
        assert t[..at] + [entries[0]] == Trim(g, base);
        assert Splice(full, prev, entries)[..prev] == Splice(full, prev, entries)[..prev + 1][..prev];
      }
    }
  }

  /** On logs of the protocol, the append loop keeps a log that already contains the
      leader's entries and otherwise replaces it by the leader's prefix. */
  lemma {:induction false} SpliceAdopts(a: C.State, full: seq<Entry>, top: seq<Entry>, prev: nat, m: nat)
    requires C.Sound(a.lead, full) && C.Sound(a.lead, top)
    requires prev <= m <= |top| && prev <= |full| && full[..prev] == top[..prev]
    ensures Splice(full, prev, top[prev..m]) == C.Adopted(full, top[..m])
    decreases m - prev
  {
    if prev < m {
      assert top[prev..m][1..] == top[prev + 1..m];
      if prev < |full| && full[prev].term == top[prev].term {
        C.LogMatching(a, full, top, prev + 1);
        SpliceAdopts(a, full, top, prev + 1, m);
      } else {
        SpliceOverwrites(full[..prev] + [top[prev]], top, prev + 1, m);
        assert top[..m][prev] == top[prev];
      }
    } else {
      assert top[..m] == full[..prev];
    }
  }

  lemma {:induction false} SpliceOverwrites(log: seq<Entry>, top: seq<Entry>, prev: nat, m: nat)
    requires prev <= m <= |top| && log == top[..prev]
    ensures Splice(log, prev, top[prev..m]) == top[..m]
    decreases m - prev
  {
    if prev < m {
      assert top[prev..m][1..] == top[prev + 1..m];
      assert log[..prev] + [top[prev]] == top[..prev + 1];
      SpliceOverwrites(top[..prev + 1], top, prev + 1, m);
    }
  }

  /** Installing a snapshot keeps a log that extends it and otherwise restarts from it. */
  lemma DropAdopts(a: C.State, full: seq<Entry>, base: nat, top: seq<Entry>, k: nat)
    requires C.Sound(a.lead, full) && C.Sound(a.lead, top)
    requires base <= |full| && base < k <= |top|
    ensures var log := C.Adopted(full, top[..k]);
            k <= |log| && DropPrefix(Trim(full, base), k - base, TermAt(top, k)) == Trim(log, k)
            && TermAt(log, k) == TermAt(top, k) && log[..k] == top[..k]
  {
    if k <= |full| && TermAt(full, k) == TermAt(top, k) {
      C.LogMatching(a, full, top, k);
      assert Trim(full, base)[k - base + 1..] == full[k..];
    } else if top[..k] <= full {
      assert top[..k][k - 1] == full[k - 1];
    }
  }
}
