/** One Raft server as a value, and the effect of each of its critical sections.

    A server keeps only the part of its log above `lastIncludedIndex`; position 0 of
    `log` is a sentinel that carries `lastIncludedTerm`. */
module RaftNode {
  import opened KvStore
  import opened Quorum
  import opened RaftLog

  datatype Role = Follower | Candidate | Leader

  /** What `persist` writes and `readPersist` reads back. */
  datatype Image =
    | Blank
    | Image(currentTerm: nat, votedFor: int, log: seq<Entry>,
            lastIncludedIndex: nat, lastIncludedTerm: nat)

  datatype Node = Node(
    currentTerm: nat,
    votedFor: int,                // -1 when no vote was cast in currentTerm
    log: seq<Entry>,
    lastIncludedIndex: nat,
    lastIncludedTerm: nat,
    commitIndex: nat,
    lastApplied: nat,
    nextIndex: seq<nat>,
    matchIndex: seq<nat>,
    role: Role,
    votes: nat,                   // votes counted in the election of currentTerm
    awaiting: set<nat>,           // peers whose reply in that election is outstanding
    persisted: Image,
    snapshot: Store)              // decoded snapshot that is saved beside the image

  datatype VoteArgs = VoteArgs(term: nat, candidateId: nat, lastLogIndex: nat, lastLogTerm: nat)
  datatype VoteReply = VoteReply(term: nat, granted: bool)
  datatype AppendArgs = AppendArgs(term: nat, leaderId: nat, prevLogIndex: nat, prevLogTerm: nat,
                                   entries: seq<Entry>, leaderCommit: nat)
  datatype AppendReply = AppendReply(term: nat, success: bool, conflictTerm: int, conflictIndex: nat)
  datatype SnapshotArgs = SnapshotArgs(term: nat, leaderId: nat, lastIncludedIndex: nat,
                                       lastIncludedTerm: nat, data: Store)
  datatype Started = NotLeader | Started(index: nat, term: nat)
  datatype Outgoing = SendAppend(append: AppendArgs) | SendSnapshot(install: SnapshotArgs)

  function Min(a: nat, b: nat): nat {
    if a < b then a else b
  }

  // ---------------------------------------------------------------- indices

  function LastLogIndex(node: Node): nat
    requires |node.log| > 0
  {
    |node.log| - 1 + node.lastIncludedIndex
  }

  function LastLogTerm(node: Node): nat
    requires |node.log| > 0
  {
    node.log[|node.log| - 1].term
  }

  // ---------------------------------------------------------------- persistence

  function Memory(node: Node): Image {
    Image(node.currentTerm, node.votedFor, node.log, node.lastIncludedIndex, node.lastIncludedTerm)
  }

  /** An empty disk decodes to nothing and leaves the initial values in place. */
  function Load(image: Image): Image {
    if image.Blank? then Image(0, -1, [Entry(Nothing, 0)], 0, 0) else image
  }

  function Persist(node: Node): Node {
    node.(persisted := Memory(node))
  }

  /** A server of `n` that starts from what was saved before. */
  function Boot(n: nat, image: Image, snapshot: Store): Node {
    var m := Load(image);
    Node(m.currentTerm, m.votedFor, m.log, m.lastIncludedIndex, m.lastIncludedTerm,
         m.lastIncludedIndex, m.lastIncludedIndex,
         seq(n, _ => 0), seq(n, _ => 0), Follower, 0, {}, image, snapshot)
  }

  function Restart(node: Node): Node {
    Boot(|node.nextIndex|, node.persisted, node.snapshot)
  }

  function StepDown(node: Node, term: nat): Node {
    Persist(node.(currentTerm := term, role := Follower, votedFor := -1))
  }

  // ---------------------------------------------------------------- elections

  function StartElection(node: Node, me: nat): Node {
    Persist(node.(role := Candidate, currentTerm := node.currentTerm + 1, votedFor := me,
                  votes := 1, awaiting := Servers(|node.nextIndex|) - {me}))
  }

  function VoteRequest(node: Node, me: nat): VoteArgs
    requires |node.log| > 0
  {
    VoteArgs(node.currentTerm, me, LastLogIndex(node), LastLogTerm(node))
  }

  function RequestVote(node: Node, args: VoteArgs): (Node, VoteReply)
    requires |node.log| > 0
  {
    if args.term < node.currentTerm then (node, VoteReply(node.currentTerm, false))
    else
      var n := if args.term > node.currentTerm then StepDown(node, args.term) else node;
      var upToDate := args.lastLogTerm > LastLogTerm(n)
                      || (args.lastLogTerm == LastLogTerm(n) && args.lastLogIndex >= LastLogIndex(n));
      if (n.votedFor == -1 || n.votedFor == args.candidateId) && upToDate then
        (Persist(n.(votedFor := args.candidateId)), VoteReply(n.currentTerm, true))
      else
        (n, VoteReply(n.currentTerm, false))
  }

  function BecomeLeader(node: Node): Node
    requires |node.log| > 0
  {
    node.(role := Leader,
          nextIndex := seq(|node.nextIndex|, _ => LastLogIndex(node) + 1),
          matchIndex := seq(|node.matchIndex|, _ => 0))
  }

  /** The reply of `peer` to the request that this server sent in `term`. */
  function OnVoteReply(node: Node, peer: nat, term: nat, reply: VoteReply): Node
    requires |node.log| > 0
  {
    if node.role != Candidate || node.currentTerm != term then node
    else if reply.term > node.currentTerm then StepDown(node, reply.term)
    else
      var n := node.(awaiting := node.awaiting - {peer});
      if !reply.granted then n
      else
        var m := n.(votes := n.votes + 1);
        if m.votes > |m.nextIndex| / 2 then BecomeLeader(m) else m
  }

  // ---------------------------------------------------------------- the leader

  function Start(node: Node, command: Command): (Node, Started)
    requires |node.log| > 0
  {
    if node.role != Leader then (node, NotLeader)
    else
      var n := Persist(node.(log := node.log + [Entry(command, node.currentTerm)]));
      (n, Started(LastLogIndex(n), n.currentTerm))
  }

  /** What a leader sends to `peer`: entries, or its snapshot when the entries are compacted. */
  function Replicate(node: Node, me: nat, peer: nat): Outgoing
    requires |node.log| > 0 && peer < |node.nextIndex|
    requires node.nextIndex[peer] <= LastLogIndex(node) + 1
  {
    var next := node.nextIndex[peer];
    if next <= node.lastIncludedIndex then
      SendSnapshot(SnapshotArgs(node.currentTerm, me, node.lastIncludedIndex,
                                node.lastIncludedTerm, node.snapshot))
    else
      SendAppend(AppendArgs(node.currentTerm, me, next - 1,
                            node.log[next - 1 - node.lastIncludedIndex].term,
                            node.log[next - node.lastIncludedIndex..],
                            node.commitIndex))
  }

  /** Servers known to hold index `n`, the leader included. */
  function Replicas(matchIndex: seq<nat>, me: nat, n: nat): set<nat> {
    set p: nat | p < |matchIndex| && (p == me || matchIndex[p] >= n)
  }

  /** The commit rule: scan down from `n` through entries of the current term. */
  function CommitScan(node: Node, me: nat, n: nat): (r: nat)
    requires node.lastIncludedIndex <= node.commitIndex
    requires |node.log| > 0 && n <= LastLogIndex(node)
    ensures r == node.commitIndex ||
            (node.commitIndex < r <= n
             && node.log[r - node.lastIncludedIndex].term == node.currentTerm
             && |Replicas(node.matchIndex, me, r)| > |node.matchIndex| / 2)
  {
    if n <= node.commitIndex then node.commitIndex
    else if node.log[n - node.lastIncludedIndex].term != node.currentTerm then node.commitIndex
    else if |Replicas(node.matchIndex, me, n)| > |node.matchIndex| / 2 then n
    else CommitScan(node, me, n - 1)
  }

  function UpdateCommit(node: Node, me: nat): Node
    requires node.lastIncludedIndex <= node.commitIndex && |node.log| > 0
  {
    node.(commitIndex := CommitScan(node, me, LastLogIndex(node)))
  }

  /** Highest position in 1..n of a compacted log whose entry has term `t`, or 0. */
  function LastOfTerm(log: seq<Entry>, n: nat, t: int): (r: nat)
    requires n < |log|
    ensures r <= n
    ensures r > 0 ==> log[r].term == t
    ensures forall i | r < i <= n :: log[i].term != t
  {
    if n == 0 then 0 else if log[n].term == t then n else LastOfTerm(log, n - 1, t)
  }

  /** Where the leader retries after a rejection. */
  function Backup(node: Node, reply: AppendReply): nat
    requires |node.log| > 0
  {
    if reply.conflictTerm == -1 then reply.conflictIndex
    else
      var i := LastOfTerm(node.log, |node.log| - 1, reply.conflictTerm);
      if i > 0 then i + node.lastIncludedIndex + 1 else reply.conflictIndex
  }

  function OnAppendReply(node: Node, me: nat, peer: nat, term: nat, prev: nat, count: nat,
                         reply: AppendReply): Node
    requires |node.log| > 0 && node.lastIncludedIndex <= node.commitIndex
    requires peer < |node.nextIndex| == |node.matchIndex|
  {
    if node.role != Leader || node.currentTerm != term then node
    else if reply.term > node.currentTerm then StepDown(node, reply.term)
    else if reply.success then
      UpdateCommit(node.(matchIndex := node.matchIndex[peer := prev + count],
                         nextIndex := node.nextIndex[peer := prev + count + 1]), me)
    else
      node.(nextIndex := node.nextIndex[peer := Backup(node, reply)])
  }

  function OnSnapshotReply(node: Node, peer: nat, term: nat, included: nat, replyTerm: nat): Node
    requires peer < |node.nextIndex| == |node.matchIndex|
  {
    if node.role != Leader || node.currentTerm != term then node
    else if replyTerm > node.currentTerm then StepDown(node, replyTerm)
    else
      var m := Higher(node.matchIndex[peer], included);
      node.(matchIndex := node.matchIndex[peer := m], nextIndex := node.nextIndex[peer := m + 1])
  }

  // ---------------------------------------------------------------- the follower

  /** First position of the run of `log[n].term` that ends at `n`, not looking below 0. */
  function RunStart(log: seq<Entry>, n: nat): (r: nat)
    requires n < |log|
    ensures r <= n
    ensures forall i | r <= i <= n :: log[i].term == log[n].term
    ensures r > 0 ==> log[r - 1].term != log[n].term
  {
    if n > 0 && log[n - 1].term == log[n].term then RunStart(log, n - 1) else n
  }

  /** The append loop: skip entries already present, cut the log at the first conflict. */
  function Splice(log: seq<Entry>, at: nat, entries: seq<Entry>): seq<Entry>
    requires at <= |log|
    decreases |entries|
  {
    if entries == [] then log
    else if at < |log| && log[at].term == entries[0].term then Splice(log, at + 1, entries[1..])
    else Splice(log[..at] + [entries[0]], at + 1, entries[1..])
  }

  /** A request whose term is not older: adopt the term, and stop standing for election. */
  function Recognise(node: Node, term: nat): Node {
    if term > node.currentTerm then StepDown(node, term)
    else if node.role == Candidate then node.(role := Follower)
    else node
  }

  /** The log adopted by the accepting branch, before the commit index moves. */
  function Accepted(n: Node, args: AppendArgs): Node
    requires n.lastIncludedIndex <= args.prevLogIndex <= n.lastIncludedIndex + |n.log| - 1
  {
    var log := Splice(n.log, args.prevLogIndex - n.lastIncludedIndex + 1, args.entries);
    if log != n.log then Persist(n.(log := log)) else n
  }

  /** The accepting branch of AppendEntries. */
  function Accept(n: Node, args: AppendArgs): Node
    requires n.lastIncludedIndex <= args.prevLogIndex <= n.lastIncludedIndex + |n.log| - 1
  {
    var m := Accepted(n, args);
    m.(commitIndex := Higher(m.commitIndex, Min(args.leaderCommit, args.prevLogIndex + |args.entries|)))
  }

  function AppendEntries(node: Node, args: AppendArgs): (Node, AppendReply)
    requires |node.log| > 0
  {
    if args.term < node.currentTerm then (node, AppendReply(node.currentTerm, false, 0, 0))
    else
      var n := Recognise(node, args.term);
      if args.prevLogIndex < n.lastIncludedIndex then
        (n, AppendReply(n.currentTerm, false, -1, n.lastIncludedIndex + 1))
      else if args.prevLogIndex > LastLogIndex(n) then
        (n, AppendReply(n.currentTerm, false, -1, LastLogIndex(n) + 1))
      else
        var rel := args.prevLogIndex - n.lastIncludedIndex;
        if n.log[rel].term != args.prevLogTerm then
          (n, AppendReply(n.currentTerm, false, n.log[rel].term,
                          RunStart(n.log, rel) + n.lastIncludedIndex))
        else
          (Accept(n, args), AppendReply(n.currentTerm, true, 0, 0))
  }

  /** Drop everything up to position `rel`, or the whole log when the snapshot does not extend it. */
  function DropPrefix(log: seq<Entry>, rel: int, term: nat): seq<Entry> {
    [Entry(Nothing, term)] + (if 0 < rel < |log| && log[rel].term == term then log[rel + 1..] else [])
  }

  function Save(node: Node, data: Store): Node {
    node.(persisted := Memory(node), snapshot := data)
  }

  function InstallSnapshot(node: Node, args: SnapshotArgs): (Node, nat)
    requires |node.log| > 0
  {
    if args.term < node.currentTerm then (node, node.currentTerm)
    else
      var n := Recognise(node, args.term);
      if args.lastIncludedIndex <= n.lastIncludedIndex then (n, node.currentTerm)
      else
        (Save(n.(log := DropPrefix(n.log, args.lastIncludedIndex - n.lastIncludedIndex, args.lastIncludedTerm),
                 lastIncludedIndex := args.lastIncludedIndex,
                 lastIncludedTerm := args.lastIncludedTerm,
                 commitIndex := Higher(n.commitIndex, args.lastIncludedIndex),
                 lastApplied := Higher(n.lastApplied, args.lastIncludedIndex)), args.data),
         node.currentTerm)
  }

  // ---------------------------------------------------------------- the service above

  function Snapshot(node: Node, index: nat, data: Store): Node
    requires |node.log| > 0 && index <= LastLogIndex(node)
  {
    if index <= node.lastIncludedIndex then node
    else
      var rel := index - node.lastIncludedIndex;
      var term := node.log[rel].term;
      Save(node.(log := [Entry(Nothing, term)] + node.log[rel + 1..],
                 lastIncludedIndex := index, lastIncludedTerm := term,
                 commitIndex := Higher(node.commitIndex, index),
                 lastApplied := Higher(node.lastApplied, index)), data)
  }

  /** Entries handed to the service by one round of the applier. */
  function Batch(node: Node): seq<Entry>
    requires node.lastIncludedIndex <= node.lastApplied <= node.commitIndex
    requires |node.log| > 0 && node.commitIndex <= LastLogIndex(node)
  {
    node.log[node.lastApplied + 1 - node.lastIncludedIndex..node.commitIndex + 1 - node.lastIncludedIndex]
  }
}
