/** A cluster of Raft servers over a network that may lose, delay, reorder and repeat
    messages, with crashes, restarts, compaction and snapshot installation.

    Each event is one critical section of one server. */
module Cluster {
  import opened KvStore
  import Quorum
  import opened RaftLog
  import opened RaftNode

  /** A reply names the request it answers: the goroutine that sent the request still has
      its arguments when the reply arrives. */
  datatype Message =
    | VoteReq(src: nat, dst: nat, vote: VoteArgs)
    | VoteRep(src: nat, dst: nat, term: nat, voteReply: VoteReply)
    | AppendReq(src: nat, dst: nat, append: AppendArgs)
    | AppendRep(src: nat, dst: nat, term: nat, prev: nat, count: nat, appendReply: AppendReply)
    | InstallReq(src: nat, dst: nat, install: SnapshotArgs)
    | InstallRep(src: nat, dst: nat, term: nat, included: nat, replyTerm: nat)

  /** A command handed to the service of `server`. */
  datatype Applied = Applied(server: nat, index: nat, command: Command)

  /** An entry that Start placed at `index`. */
  datatype Placed = Placed(index: nat, entry: Entry)

  /** `applied` and `started` record what was handed to services and what Start accepted. */
  datatype State = State(nodes: seq<Node>, net: set<Message>, applied: set<Applied>, started: set<Placed>)

  datatype Event =
    | Timeout(server: nat)
    | Deliver(message: Message)
    | Submit(server: nat, command: Command)
    | Send(server: nat, peer: nat)
    | Compact(server: nat, index: nat, data: Store)
    | Apply(server: nat)
    | Crash(server: nat)

  function Actor(e: Event): nat {
    if e.Deliver? then e.message.dst else e.server
  }

  /** A live election accepts one reply per peer: the request was sent once. */
  predicate Expected(node: Node, m: Message)
    requires m.VoteRep?
  {
    node.role == Candidate && node.currentTerm == m.term ==> m.src in node.awaiting
  }

  /** When the program, its clients or its environment may take this step. */
  predicate Enabled(s: State, e: Event) {
    && Actor(e) < |s.nodes|
    && var node := s.nodes[Actor(e)];
       match e
       case Timeout(_) => node.role != Leader
       case Deliver(m) => m in s.net && (m.VoteRep? ==> Expected(node, m))
       case Submit(_, _) => true
       case Send(i, peer) => node.role == Leader && peer < |s.nodes| && peer != i
       case Compact(_, index, _) => index <= node.lastApplied  // the service names an entry it was handed
       case Apply(_) => true
       case Crash(_) => true
  }

  /** Every index and slice of the step is in range: the program would panic otherwise. */
  predicate InRange(s: State, e: Event)
    requires Enabled(s, e)
  {
    var node := s.nodes[Actor(e)];
    && |node.log| > 0
    && match e
       case Timeout(_) => true
       case Deliver(m) =>
         (m.AppendRep? || m.InstallRep? ==>
            && m.src < |node.nextIndex| == |node.matchIndex|
            && node.lastIncludedIndex <= node.commitIndex)
       case Submit(_, _) => true
       case Send(_, peer) =>
         peer < |node.nextIndex| && 1 <= node.nextIndex[peer] <= LastLogIndex(node) + 1
       case Compact(_, index, _) => index <= LastLogIndex(node)
       case Apply(_) =>
         && node.lastIncludedIndex <= node.lastApplied <= node.commitIndex
         && node.commitIndex <= LastLogIndex(node)
       case Crash(_) => true
  }

  function Receive(node: Node, m: Message): (Node, set<Message>)
    requires |node.log| > 0
    requires m.AppendRep? || m.InstallRep? ==>
      m.src < |node.nextIndex| == |node.matchIndex| && node.lastIncludedIndex <= node.commitIndex
  {
    match m
    case VoteReq(src, dst, args) =>
      var (n, r) := RequestVote(node, args);
      (n, {VoteRep(dst, src, args.term, r)})
    case VoteRep(src, dst, term, r) =>
      (OnVoteReply(node, src, term, r), {})
    case AppendReq(src, dst, args) =>
      var (n, r) := AppendEntries(node, args);
      (n, {AppendRep(dst, src, args.term, args.prevLogIndex, |args.entries|, r)})
    case AppendRep(src, dst, term, prev, count, r) =>
      (OnAppendReply(node, dst, src, term, prev, count, r), {})
    case InstallReq(src, dst, args) =>
      var (n, r) := InstallSnapshot(node, args);
      (n, {InstallRep(dst, src, args.term, args.lastIncludedIndex, r)})
    case InstallRep(src, dst, term, included, r) =>
      (OnSnapshotReply(node, src, term, included, r), {})
  }

  function Ballots(i: nat, n: nat, args: VoteArgs): set<Message> {
    set p | p in Quorum.Servers(n) && p != i :: VoteReq(i, p, args)
  }

  function Handed(i: nat, first: nat, batch: seq<Entry>): set<Applied> {
    set k | 0 <= k < |batch| :: Applied(i, first + k, batch[k].command)
  }

  function Reported(r: Started, command: Command): set<Placed> {
    if r.Started? then {Placed(r.index, Entry(command, r.term))} else {}
  }

  function Wire(i: nat, peer: nat, out: Outgoing): Message {
    match out
    case SendAppend(args) => AppendReq(i, peer, args)
    case SendSnapshot(args) => InstallReq(i, peer, args)
  }

  function Step(s: State, e: Event): State
    requires Enabled(s, e) && InRange(s, e)
  {
    var i := Actor(e);
    var node := s.nodes[i];
    match e
    case Timeout(_) =>
      var n := StartElection(node, i);
      s.(nodes := s.nodes[i := n], net := s.net + Ballots(i, |s.nodes|, VoteRequest(n, i)))
    case Deliver(m) =>
      var (n, out) := Receive(node, m);
      s.(nodes := s.nodes[i := n], net := s.net + out)
    case Submit(_, command) =>
      var (n, r) := Start(node, command);
      s.(nodes := s.nodes[i := n], started := s.started + Reported(r, command))
    case Send(_, peer) =>
      s.(net := s.net + {Wire(i, peer, Replicate(node, i, peer))})
    case Compact(_, index, data) =>
      s.(nodes := s.nodes[i := RaftNode.Snapshot(node, index, data)])
    case Apply(_) =>
      s.(nodes := s.nodes[i := node.(lastApplied := node.commitIndex)],
         applied := s.applied + Handed(i, node.lastApplied + 1, Batch(node)))
    case Crash(_) =>
      s.(nodes := s.nodes[i := Restart(node)])
  }

  predicate Init(s: State) {
    && (forall i | 0 <= i < |s.nodes| :: s.nodes[i] == Boot(|s.nodes|, Blank, map[]))
    && s.net == {} && s.applied == {} && s.started == {}
  }

  ghost predicate Next(s: State, s': State) {
    exists e :: Enabled(s, e) && InRange(s, e) && s' == Step(s, e)
  }

  /** A run of the cluster, of any length. */
  ghost predicate Run(run: seq<State>) {
    && |run| > 0 && Init(run[0])
    && forall i | 0 < i < |run| :: Next(run[i - 1], run[i])
  }
}
