/** Every run of the cluster follows the full-log protocol. */
module ClusterProof {
  import opened RaftLog
  import opened RaftNode
  import opened Cluster
  import C = Consensus
  import P = ConsensusProof
  import opened Refinement
  import opened Handlers

  ghost predicate MessageOk(a: C.State, m: Message) {
    && m.src < |a.peers|
    && match m
       case VoteReq(src, _, args) => VoteArgsOk(args, a) && args.candidateId == src
       case VoteRep(src, dst, t, r) => r.granted ==> C.VotedFor(a, src, t, dst)
       case AppendReq(_, _, args) => AppendArgsOk(args, a)
       case AppendRep(src, _, t, prev, count, r) =>
         AppendReplyOk(a, src, t, prev + count, r)
       case InstallReq(_, _, args) => SnapshotArgsOk(args, a)
       case InstallRep(src, _, t, k, r) => r <= t ==> Acked(a, src, t, k)
  }

  /** Replies go to other servers, because requests do. */
  ghost predicate Addressed(m: Message) {
    m.src != m.dst
  }

  ghost predicate AppliedOk(a: C.State, x: Applied, t: nat, k: nat) {
    && C.Committed(a, t, k) && 0 < x.index <= k
    && a.lead[t].log[x.index - 1].command == x.command
  }

  ghost predicate AppliedCommitted(a: C.State, x: Applied) {
    exists t: nat, k: nat :: AppliedOk(a, x, t, k)
  }

  /** The compacted cluster follows the full-log state `a`. */
  ghost predicate Follows(s: State, a: C.State) {
    && |s.nodes| == |a.peers|
    && (forall i: nat {:trigger NodeRel(s.nodes[i], a, i)} | i < |s.nodes| :: NodeRel(s.nodes[i], a, i))
    && (forall m {:trigger MessageOk(a, m)} | m in s.net :: MessageOk(a, m) && Addressed(m))
    && (forall x {:trigger AppliedCommitted(a, x)} | x in s.applied :: AppliedCommitted(a, x))
    && (forall k: nat, e {:trigger C.Has(a.lead, k, e)} | C.Has(a.lead, k, e) :: Placed(k, e) in s.started)
  }

  /** `s` follows a protocol state that extends `a`. */
  ghost predicate Matched(s: State, a: C.State) {
    exists b :: C.Inv(b) && C.Grows(a, b) && Follows(s, b)
  }

  // ---------------------------------------------------------------- stability of what was sent

  lemma ReplyGrows(a: C.State, b: C.State, src: nat, t: nat, m: nat, r: AppendReply)
    requires C.Grows(a, b) && AppendReplyOk(a, src, t, m, r)
    ensures AppendReplyOk(b, src, t, m, r)
  {
    if r.term <= t {
      assert C.ReignGrows(a.lead, b.lead, t) && C.PeerGrows(a.peers[src], b.peers[src]);
    }
  }

  lemma AckedGrows(a: C.State, b: C.State, src: nat, t: nat, m: nat)
    requires C.Grows(a, b) && Acked(a, src, t, m)
    ensures Acked(b, src, t, m)
  {
    assert C.ReignGrows(a.lead, b.lead, t) && C.PeerGrows(a.peers[src], b.peers[src]);
  }

  lemma MessageGrows(a: C.State, b: C.State, m: Message)
    requires C.Grows(a, b) && MessageOk(a, m)
    ensures MessageOk(b, m)
  {
    match m
    case VoteReq(_, _, args) => VoteArgsGrow(args, a, b);
    case VoteRep(src, dst, t, r) =>
      assert C.PeerGrows(a.peers[src], b.peers[src]);
    case AppendReq(_, _, args) => AppendArgsGrow(args, a, b);
    case AppendRep(src, _, t, prev, count, r) => ReplyGrows(a, b, src, t, prev + count, r);
    case InstallReq(_, _, args) => SnapshotArgsGrow(args, a, b);
    case InstallRep(src, _, t, k, r) =>
      if r <= t {
        AckedGrows(a, b, src, t, k);
      }
  }

  lemma AppliedGrows(a: C.State, b: C.State, x: Applied)
    requires C.Grows(a, b) && AppliedCommitted(a, x)
    ensures AppliedCommitted(b, x)
  {
    var t: nat, k: nat :| AppliedOk(a, x, t, k);
    C.CommittedGrows(a, b, t, k);
    assert a.lead[t].log[..k][x.index - 1] == b.lead[t].log[..k][x.index - 1];
    assert AppliedOk(b, x, t, k);
  }

  /** One server moved; everything it sent or handed over is in order. */
  lemma Assemble(s: State, s': State, a: C.State, b: C.State, i: nat, n: Node)
    requires Follows(s, a) && Stepped(a, b, i) && NodeRel(n, b, i)
    requires s'.nodes == s.nodes[i := n]
    requires forall k: nat, e | C.Has(b.lead, k, e) :: C.Has(a.lead, k, e) || Placed(k, e) in s'.started
    requires s.started <= s'.started
    requires forall m | m in s'.net && m !in s.net :: MessageOk(b, m) && Addressed(m)
    requires forall x | x in s'.applied && x !in s.applied :: AppliedCommitted(b, x)
    ensures Matched(s', a)
  {
    forall j: nat | j < |s'.nodes| ensures NodeRel(s'.nodes[j], b, j) {
      if j != i {
        assert NodeRel(s.nodes[j], a, j);
        OtherKeeps(s.nodes[j], a, b, i, j);
      }
    }
    forall m | m in s'.net ensures MessageOk(b, m) && Addressed(m) {
      if m in s.net {
        assert MessageOk(a, m);
        MessageGrows(a, b, m);
      }
    }
    forall x | x in s'.applied ensures AppliedCommitted(b, x) {
      if x in s.applied {
        assert AppliedCommitted(a, x);
        AppliedGrows(a, b, x);
      }
    }
    assert Follows(s', b);
  }

  // ---------------------------------------------------------------- events

  /** No step indexes out of range. */
  lemma NoPanic(s: State, a: C.State, e: Event)
    requires C.Inv(a) && Follows(s, a) && Enabled(s, e)
    ensures InRange(s, e)
  {
    var i := Actor(e);
    assert NodeRel(s.nodes[i], a, i);
    Reads(s.nodes[i], a, i, s.nodes[i].lastIncludedIndex);
    match e
    case Send(_, peer) => ReplicateOk(s.nodes[i], a, i, peer);
    case Deliver(m) => assert MessageOk(a, m);
    case _ =>
  }

  lemma TimeoutStep(s: State, a: C.State, e: Event)
    requires C.Inv(a) && Follows(s, a) && Enabled(s, e) && InRange(s, e) && e.Timeout?
    ensures Matched(Step(s, e), a)
  {
    hide C.Inv, C.Grows, NodeRel;
    var i := Actor(e);
    assert NodeRel(s.nodes[i], a, i);
    var b := TimeoutRefines(s.nodes[i], a, i);
    Assemble(s, Step(s, e), a, b, i, StartElection(s.nodes[i], i));
  }

  lemma VoteStep(s: State, a: C.State, e: Event)
    requires C.Inv(a) && Follows(s, a) && Enabled(s, e) && InRange(s, e)
    requires e.Deliver? && (e.message.VoteReq? || e.message.VoteRep?)
    ensures Matched(Step(s, e), a)
  {
    hide C.Inv, C.Grows, NodeRel;
    var i, m := Actor(e), e.message;
    assert NodeRel(s.nodes[i], a, i) && MessageOk(a, m) && Addressed(m);
    var b: C.State;
    if m.VoteReq? {
      VoteReqRefines(s.nodes[i], a, i, m.vote);
      var (n, r) := RequestVote(s.nodes[i], m.vote);
      b :| Moved(a, b, i) && NodeRel(n, b, i) && (r.granted ==> C.VotedFor(b, i, m.vote.term, m.vote.candidateId));
    } else {
      VoteRepRefines(s.nodes[i], a, i, m.src, m.term, m.voteReply);
      b :| Moved(a, b, i) && NodeRel(Receive(s.nodes[i], m).0, b, i);
    }
    Assemble(s, Step(s, e), a, b, i, Receive(s.nodes[i], m).0);
  }

  lemma AppendStep(s: State, a: C.State, e: Event)
    requires C.Inv(a) && Follows(s, a) && Enabled(s, e) && InRange(s, e)
    requires e.Deliver? && (e.message.AppendReq? || e.message.AppendRep?)
    ensures Matched(Step(s, e), a)
  {
    hide C.Inv, C.Grows, NodeRel;
    var i, m := Actor(e), e.message;
    assert NodeRel(s.nodes[i], a, i) && MessageOk(a, m) && Addressed(m);
    var b: C.State;
    if m.AppendReq? {
      AppendReqRefines(s.nodes[i], a, i, m.append);
      var (n, r) := AppendEntries(s.nodes[i], m.append);
      b :| Moved(a, b, i) && NodeRel(n, b, i)
           && AppendReplyOk(b, i, m.append.term, m.append.prevLogIndex + |m.append.entries|, r);
    } else {
      AppendRepRefines(s.nodes[i], a, i, m.src, m.term, m.prev, m.count, m.appendReply);
      b :| Moved(a, b, i) && NodeRel(Receive(s.nodes[i], m).0, b, i);
    }
    Assemble(s, Step(s, e), a, b, i, Receive(s.nodes[i], m).0);
  }

  lemma InstallStep(s: State, a: C.State, e: Event)
    requires C.Inv(a) && Follows(s, a) && Enabled(s, e) && InRange(s, e)
    requires e.Deliver? && (e.message.InstallReq? || e.message.InstallRep?)
    ensures Matched(Step(s, e), a)
  {
    hide C.Inv, C.Grows, NodeRel;
    var i, m := Actor(e), e.message;
    assert NodeRel(s.nodes[i], a, i) && MessageOk(a, m) && Addressed(m);
    var b: C.State;
    if m.InstallReq? {
      InstallReqRefines(s.nodes[i], a, i, m.install);
      var (n, r) := InstallSnapshot(s.nodes[i], m.install);
      b :| Moved(a, b, i) && NodeRel(n, b, i)
           && (r <= m.install.term ==> Acked(b, i, m.install.term, m.install.lastIncludedIndex));
    } else {
      InstallRepRefines(s.nodes[i], a, i, m.src, m.term, m.included, m.replyTerm);
      b :| Moved(a, b, i) && NodeRel(Receive(s.nodes[i], m).0, b, i);
    }
    Assemble(s, Step(s, e), a, b, i, Receive(s.nodes[i], m).0);
  }

  lemma LeaderStep(s: State, a: C.State, e: Event)
    requires C.Inv(a) && Follows(s, a) && Enabled(s, e) && InRange(s, e)
    requires e.Submit? || e.Send?
    ensures Matched(Step(s, e), a)
  {
    hide C.Inv, C.Grows, P.Local, NodeRel, C.Has;
    var i := Actor(e);
    var node := s.nodes[i];
    assert NodeRel(node, a, i);
    if e.Send? {
      MovedRefl(a, i);
      ReplicateOk(node, a, i, e.peer);
      Assemble(s, Step(s, e), a, a, i, node);
    } else if node.role == Leader {
      SubmitRefines(node, a, i, e.command);
      var n, k, x := Start(node, e.command).0, LastLogIndex(node) + 1, Entry(e.command, node.currentTerm);
      var b :| Stepped(a, b, i) && NodeRel(n, b, i) && Only(a, b, k, x);
      Assemble(s, Step(s, e), a, b, i, n);
    } else {
      MovedRefl(a, i);
      Assemble(s, Step(s, e), a, a, i, node);
    }
  }

  /** What the applier hands over is committed. */
  lemma BatchCommitted(node: Node, a: C.State, i: nat, j: nat)
    requires C.Inv(a) && NodeRel(node, a, i) && |node.log| > 0 && node.commitIndex <= LastLogIndex(node)
    requires j < |Batch(node)|
    ensures AppliedCommitted(a, Applied(i, node.lastApplied + 1 + j, Batch(node)[j].command))
  {
    var p := a.peers[i];
    var k := node.lastApplied + 1 + j;
    TrimAt(p.log, node.lastIncludedIndex, k);
    assert C.CommitOk(a, i);
    var t: nat, n: nat :| t <= p.term && C.Within(a, p.log[..p.commit], t, n);
    assert p.log[..p.commit][k - 1] == a.lead[t].log[..n][k - 1];
    assert AppliedOk(a, Applied(i, k, Batch(node)[j].command), t, n);
  }

  lemma ServiceStep(s: State, a: C.State, e: Event)
    requires C.Inv(a) && Follows(s, a) && Enabled(s, e) && InRange(s, e)
    requires e.Compact? || e.Crash?
    ensures Matched(Step(s, e), a)
  {
    hide C.Inv, C.Grows, P.Local;
    var i := Actor(e);
    var node := s.nodes[i];
    assert NodeRel(node, a, i);
    if e.Compact? {
      MovedRefl(a, i);
      CompactRefines(node, a, i, e.index, e.data);
      Assemble(s, Step(s, e), a, a, i, RaftNode.Snapshot(node, e.index, e.data));
    } else {
      CrashRefines(node, a, i);
      var b :| Moved(a, b, i) && NodeRel(Restart(node), b, i);
      Assemble(s, Step(s, e), a, b, i, Restart(node));
    }
  }

  lemma ApplyStep(s: State, a: C.State, e: Event)
    requires C.Inv(a) && Follows(s, a) && Enabled(s, e) && InRange(s, e) && e.Apply?
    ensures Matched(Step(s, e), a)
  {
    hide C.Inv, C.Grows, P.Local, AppliedCommitted;
    var i := Actor(e);
    var node := s.nodes[i];
    assert NodeRel(node, a, i);
    forall j: nat | j < |Batch(node)|
      ensures AppliedCommitted(a, Applied(i, node.lastApplied + 1 + j, Batch(node)[j].command))
    {
      BatchCommitted(node, a, i, j);
    }
    MovedRefl(a, i);
    Assemble(s, Step(s, e), a, a, i, node.(lastApplied := node.commitIndex));
  }

  /** Every step of the cluster is matched by the protocol. */
  lemma StepFollows(s: State, a: C.State, e: Event)
    requires C.Inv(a) && Follows(s, a) && Enabled(s, e) && InRange(s, e)
    ensures Matched(Step(s, e), a)
  {
    match e
    case Timeout(_) => TimeoutStep(s, a, e);
    case Deliver(m) =>
      if m.VoteReq? || m.VoteRep? {
        VoteStep(s, a, e);
      } else if m.AppendReq? || m.AppendRep? {
        AppendStep(s, a, e);
      } else {
        InstallStep(s, a, e);
      }
    case Submit(_, _) => LeaderStep(s, a, e);
    case Send(_, _) => LeaderStep(s, a, e);
    case Apply(_) => ApplyStep(s, a, e);
    case _ => ServiceStep(s, a, e);
  }

  // ---------------------------------------------------------------- runs

  lemma InitFollows(s: State)
    requires Init(s)
    ensures exists a :: C.Inv(a) && Follows(s, a)
  {
    var p := C.Peer(0, [], 0, map[], map[], map[]);
    var a := C.State(seq(|s.nodes|, _ => p), map[]);
    forall i: nat | i < |s.nodes| ensures NodeRel(s.nodes[i], a, i) {
      assert Trim([], 0) == s.nodes[i].log;
    }
    assert C.Inv(a) && Follows(s, a);
  }

  /** The full-log history behind a run: one protocol state per cluster state, each
      extending the ones before it. */
  ghost predicate History(run: seq<State>, h: seq<C.State>) {
    && |h| == |run|
    && (forall i: nat {:trigger Follows(run[i], h[i])} | i < |run| :: C.Inv(h[i]) && Follows(run[i], h[i]))
    && (forall i: nat, j: nat {:trigger C.Grows(h[i], h[j])} | i <= j < |run| :: C.Grows(h[i], h[j]))
  }

  lemma HistoryExtends(run: seq<State>, h: seq<C.State>, s: State, b: C.State)
    requires History(run, h) && |run| > 0
    requires C.Inv(b) && Follows(s, b) && C.Grows(h[|h| - 1], b)
    ensures History(run + [s], h + [b])
  {
    hide C.Inv, C.Grows, Follows;
    var r, g, k := run + [s], h + [b], |run|;
    forall i: nat | i < |r| ensures C.Inv(g[i]) && Follows(r[i], g[i]) {
      assert i < k ==> Follows(run[i], h[i]);
    }
    forall i: nat, j: nat | i <= j < |r| ensures C.Grows(g[i], g[j]) {
      if j < k {
        assert C.Grows(h[i], h[j]);
      } else if i < k {
        assert C.Grows(h[i], h[k - 1]);
        C.GrowsTransitive(h[i], h[k - 1], b);
      } else {
        C.GrowsReflexive(b);
      }
    }
  }

  lemma RunPrefix(run: seq<State>, k: nat)
    requires Run(run) && 0 < k <= |run|
    ensures Run(run[..k])
  {
    var r := run[..k];
    forall i | 0 < i < |r| ensures Next(r[i - 1], r[i]) {
      assert Next(run[i - 1], run[i]);
    }
  }

  lemma {:induction false} HistoryExists(run: seq<State>) returns (h: seq<C.State>)
    requires Run(run)
    ensures History(run, h)
  {
    hide C.Inv, C.Grows, Follows;
    var k := |run| - 1;
    if k == 0 {
      InitFollows(run[0]);
      var a :| C.Inv(a) && Follows(run[0], a);
      h := [a];
      C.GrowsReflexive(a);
    } else {
      RunPrefix(run, k);
      var g := HistoryExists(run[..k]);
      assert Follows(run[..k][k - 1], g[k - 1]);
      NextFollows(run[k - 1], run[k], g[k - 1]);
      var b :| C.Inv(b) && C.Grows(g[k - 1], b) && Follows(run[k], b);
      HistoryExtends(run[..k], g, run[k], b);
      h := g + [b];
      assert run == run[..k] + [run[k]];
    }
  }

  lemma NextFollows(s: State, s': State, a: C.State)
    requires C.Inv(a) && Follows(s, a) && Next(s, s')
    ensures Matched(s', a)
  {
    var e :| Enabled(s, e) && InRange(s, e) && s' == Step(s, e);
    StepFollows(s, a, e);
  }
}
