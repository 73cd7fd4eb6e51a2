/** The replicated store on top of Raft: on each server a service reads the apply channel of
    its Raft instance, saves its own state when asked to compact, and answers Submit threads. */
module ReplicatedStore {
  import opened KvStore
  import opened RaftLog
  import opened RaftNode
  import opened Cluster
  import opened Rsm
  import C = Consensus
  import opened Refinement
  import opened ClusterProof
  import opened Submitted

  datatype World = World(cluster: Cluster.State, services: seq<Service>)

  datatype Happening =
    | Raft(event: Event)                // a critical section of Raft, with what it sends up
    | Read(server: nat, k: nat)         // the reader receives the message at place k
    | Register(server: nat, index: nat, startTerm: nat, id: int)
    | Poll(server: nat, thread: nat)
    | Close(server: nat)

  function Where(x: Happening): nat {
    if x.Raft? then Actor(x.event) else x.server
  }

  /** The snapshot in a request replaces the follower's log base, and is sent to its service. */
  predicate Installs(node: Node, args: SnapshotArgs) {
    args.term >= node.currentTerm && args.lastIncludedIndex > node.lastIncludedIndex
  }

  /** When something can happen. The service passes its own state, at the index it has read, to
      be saved as a snapshot. Commands come in the order in which the applier sends them; the
      goroutines that send snapshots may overtake it and each other. */
  predicate Possible(w: World, x: Happening) {
    && |w.services| == |w.cluster.nodes| && Where(x) < |w.services|
    && var s := w.services[Where(x)];
       match x
       case Raft(e) =>
         Enabled(w.cluster, e) && InRange(w.cluster, e) && (e.Compact? ==> e.index == s.position && e.data == s.store)
       case Read(_, k) => k < |s.queue| && (s.queue[k].CommandMsg? ==> forall l | 0 <= l < k :: s.queue[l].SnapshotMsg?)
       case Poll(_, j) => j < |s.threads| && s.threads[j].outcome == Waiting
       case _ => true
  }

  /** The messages of one round of the applier. */
  function Messages(first: nat, batch: seq<Entry>): seq<ApplyMsg> {
    seq(|batch|, k requires 0 <= k < |batch| => CommandMsg(first + k, batch[k].command))
  }

  /** A service that starts from the saved snapshot. */
  function Booted(node: Node): Service {
    Service(node.snapshot, node.lastIncludedIndex, [], map[], [])
  }

  /** What an event of Raft does to the service beside it. */
  function Served(s: Service, node: Node, e: Event): Service
    requires e.Apply? ==> node.lastIncludedIndex <= node.lastApplied <= node.commitIndex
    requires e.Apply? ==> |node.log| > 0 && node.commitIndex <= LastLogIndex(node)
  {
    match e
    case Apply(_) => s.(queue := s.queue + Messages(node.lastApplied + 1, Batch(node)))
    case Crash(_) => Booted(Restart(node))
    case Deliver(m) =>
      if m.InstallReq? && Installs(node, m.install) then
        s.(queue := s.queue + [SnapshotMsg(m.install.lastIncludedIndex, m.install.data)])
      else s
    case _ => s
  }

  function After(w: World, x: Happening): World
    requires Possible(w, x)
  {
    var i := Where(x);
    var s := w.services[i];
    var node := w.cluster.nodes[i];
    match x
    case Raft(e) => World(Step(w.cluster, e), w.services[i := Served(s, node, e)])
    case Read(_, k) => w.(services := w.services[i := ReadAt(s, k)])
    case Register(_, index, startTerm, id) => w.(services := w.services[i := Registered(s, index, startTerm, id)])
    case Poll(_, j) =>
      var lost := node.role != Leader || node.currentTerm != s.threads[j].startTerm;
      w.(services := w.services[i := OnPoll(s, j, lost)])
    case Close(_) => w.(services := w.services[i := CloseAll(s)])
  }

  predicate Initial(w: World) {
    && Init(w.cluster) && |w.services| == |w.cluster.nodes|
    && forall p | 0 <= p < |w.services| :: w.services[p] == Service(map[], 0, [], map[], [])
  }

  /** A run, with what happened between its worlds. */
  ghost predicate Trace(run: seq<World>, xs: seq<Happening>) {
    && |run| == |xs| + 1 && Initial(run[0])
    && forall i | 0 <= i < |xs| :: Possible(run[i], xs[i]) && run[i + 1] == After(run[i], xs[i])
  }

  /** A thread without a notification waits exactly while its server leads in the term in which
      its operation was started. */
  lemma SubmitWaits(w: World, x: Happening)
    requires Possible(w, x) && x.Poll? && w.services[x.server].threads[x.thread].channel == Empty
    ensures var node, t := w.cluster.nodes[x.server], w.services[x.server].threads[x.thread];
      After(w, x) == w <==> node.role == Leader && node.currentTerm == t.startTerm
  {
    assert w.services[x.server := w.services[x.server]] == w.services;
    var s := After(w, x).services[x.server];
    assert s.threads[x.thread].outcome != Waiting ==> s != w.services[x.server];
  }

  // ---------------------------------------------------------------- order of delivery

  /** A command that is read is the one right after what the service has. */
  predicate Orderly(w: World, x: Happening)
    requires Possible(w, x)
  {
    x.Read? ==>
      var s := w.services[x.server];
      s.queue[x.k].CommandMsg? ==> s.queue[x.k].index == s.position + 1
  }

  ghost predicate InOrder(run: seq<World>, xs: seq<Happening>)
    requires Trace(run, xs)
  {
    forall i | 0 <= i < |xs| :: Orderly(run[i], xs[i])
  }

  /** The installed snapshot is older than what was already handed to the service. */
  predicate RollsBack(w: World, x: Happening)
    requires Possible(w, x)
  {
    && x.Raft? && x.event.Deliver? && x.event.message.InstallReq?
    && Installs(w.cluster.nodes[Where(x)], x.event.message.install)
    && x.event.message.install.lastIncludedIndex < w.cluster.nodes[Where(x)].lastApplied
  }

  /** Messages arrive in the order in which they were sent. */
  predicate Fifo(x: Happening) {
    x.Read? ==> x.k == 0
  }

  ghost predicate Submits(xs: seq<Happening>, ok: Command -> bool) {
    forall i | 0 <= i < |xs| :: xs[i].Raft? && xs[i].event.Submit? ==> ok(xs[i].event.command)
  }

  // ---------------------------------------------------------------- invariant

  /** The service of `p` is in step with what its server has handed over, and the saved
      snapshot is the replay of the entries it stands for. */
  ghost predicate Held(w: World, a: C.State, ok: Command -> bool, p: nat)
    requires p < |w.services| == |w.cluster.nodes| == |a.peers|
  {
    var node, log := w.cluster.nodes[p], a.peers[p].log;
    && node.lastIncludedIndex <= node.lastApplied <= |log|
    && InStep(w.services[p], log[..node.lastApplied], ok)
    && node.snapshot == Replay(map[], log[..node.lastIncludedIndex])
  }

  /** A snapshot that was sent is the replay of the prefix of its leader's log. */
  ghost predicate TrueInstall(a: C.State, args: SnapshotArgs) {
    && args.term in a.lead && args.lastIncludedIndex <= |a.lead[args.term].log|
    && args.data == Replay(map[], a.lead[args.term].log[..args.lastIncludedIndex])
  }

  ghost predicate AllHeld(w: World, a: C.State, ok: Command -> bool) {
    && |w.services| == |w.cluster.nodes| == |a.peers|
    && (forall p: nat {:trigger Held(w, a, ok, p)} | p < |w.services| :: Held(w, a, ok, p))
    && (forall m | m in w.cluster.net && m.InstallReq? :: TrueInstall(a, m.install))
    && StateAll(ok, w.cluster)
  }

  ghost predicate Good(w: World, a: C.State, ok: Command -> bool) {
    C.Inv(a) && Follows(w.cluster, a) && AllHeld(w, a, ok)
  }

  // ---------------------------------------------------------------- steps of Raft

  /** A server's full log keeps the prefix it has committed. */
  lemma CommittedPrefixStays(node: Node, a: C.State, node': Node, b: C.State, p: nat, n: nat)
    requires C.Inv(a) && C.Inv(b) && C.Grows(a, b) && NodeRel(node, a, p) && NodeRel(node', b, p)
    requires n <= node.commitIndex && n <= node'.commitIndex
    ensures a.peers[p].log[..n] == b.peers[p].log[..n]
  {
    var l, m := a.peers[p].log, b.peers[p].log;
    assert C.CommitOk(a, p) && C.CommitOk(b, p);
    C.PrefixCommittedShorter(a, l[..node.commitIndex], l[..n], a.peers[p].term);
    C.PrefixCommittedShorter(b, m[..node'.commitIndex], m[..n], b.peers[p].term);
    C.PrefixCommittedGrows(a, b, l[..n], a.peers[p].term, a.peers[p].term);
    C.CommittedAgree(b, l[..n], m[..n], a.peers[p].term, b.peers[p].term);
  }

  /** The part of a service's obligations that a longer or rewritten log leaves alone. */
  lemma Carried(s: Service, node: Node, log: seq<Entry>, log': seq<Entry>, n: nat, ok: Command -> bool)
    requires node.lastIncludedIndex <= node.lastApplied <= |log| && node.lastApplied <= n <= |log'|
    requires log[..node.lastApplied] == log'[..node.lastApplied] && InStep(s, log[..node.lastApplied], ok)
    ensures InStep(s, log'[..n], ok) && log'[..node.lastIncludedIndex] == log[..node.lastIncludedIndex]
  {
    hide InStep;
    InStepGrows(s, log[..node.lastApplied], log'[..n], ok);
    var k := node.lastIncludedIndex;
    assert log[..k] == log[..node.lastApplied][..k] == log'[..node.lastApplied][..k] == log'[..k];
  }

  /** Nothing is handed over, and snapshot and lastApplied stay. */
  lemma KeptHeld(w: World, a: C.State, w': World, b: C.State, ok: Command -> bool, p: nat)
    requires Good(w, a, ok) && C.Inv(b) && C.Grows(a, b) && Follows(w'.cluster, b)
    requires p < |w.services| == |w'.services| == |w'.cluster.nodes| && w'.services[p] == w.services[p]
    requires var n, n' := w.cluster.nodes[p], w'.cluster.nodes[p];
      && n'.lastApplied == n.lastApplied <= n'.commitIndex
      && n'.lastIncludedIndex == n.lastIncludedIndex && n'.snapshot == n.snapshot
    ensures |b.peers| == |w'.services| && Held(w', b, ok, p)
  {
    hide C.Inv, C.Grows, InStep, Replay;
    var n, n' := w.cluster.nodes[p], w'.cluster.nodes[p];
    assert NodeRel(n, a, p) && NodeRel(n', b, p) && Held(w, a, ok, p);
    CommittedPrefixStays(n, a, n', b, p, n.lastApplied);
    Carried(w.services[p], n, a.peers[p].log, b.peers[p].log, n.lastApplied, ok);
  }

  lemma ReceiveQuiet(node: Node, m: Message)
    requires |node.log| > 0 && !(m.InstallReq? && Installs(node, m.install))
    requires m.AppendRep? || m.InstallRep? ==>
      m.src < |node.nextIndex| == |node.matchIndex| && node.lastIncludedIndex <= node.commitIndex
    ensures var n := Receive(node, m).0;
      && n.lastApplied == node.lastApplied && n.commitIndex >= node.commitIndex
      && n.lastIncludedIndex == node.lastIncludedIndex && n.snapshot == node.snapshot
  {
    if m.AppendReq? {
      hide AppendEntries;
      AppendQuiet(node, m.append);
    }
  }

  lemma AppendQuiet(node: Node, args: AppendArgs)
    requires |node.log| > 0
    ensures var n := AppendEntries(node, args).0;
      && n.lastApplied == node.lastApplied && n.commitIndex >= node.commitIndex
      && n.lastIncludedIndex == node.lastIncludedIndex && n.snapshot == node.snapshot
  {
    hide Splice, RunStart;
  }

  /** One round of the applier. */
  lemma ApplyHeld(w: World, a: C.State, x: Happening, b: C.State, ok: Command -> bool)
    requires Good(w, a, ok) && Possible(w, x) && x.Raft? && x.event.Apply?
    requires C.Inv(b) && C.Grows(a, b) && Follows(After(w, x).cluster, b)
    ensures |b.peers| == |w.services| && Held(After(w, x), b, ok, Where(x))
  {
    hide C.Inv, C.Grows, InStep, Replay, Batch, Messages;
    var i, w' := Where(x), After(w, x);
    var s, n, n' := w.services[i], w.cluster.nodes[i], w'.cluster.nodes[i];
    assert NodeRel(n, a, i) && NodeRel(n', b, i) && Held(w, a, ok, i) && NodeAll(ok, n);
    CommittedPrefixStays(n, a, n', b, i, n.commitIndex);
    var l, m := a.peers[i].log, b.peers[i].log;
    assert l[..n.lastApplied] == l[..n.commitIndex][..n.lastApplied] == m[..n.commitIndex][..n.lastApplied];
    Carried(s, n, l, m, n.commitIndex, ok);
    BatchTrue(n, m, ok);
    SentInStep(s, Messages(n.lastApplied + 1, Batch(n)), m[..n.commitIndex], ok);
  }

  lemma BatchTrue(n: Node, log: seq<Entry>, ok: Command -> bool)
    requires n.lastIncludedIndex <= n.lastApplied <= n.commitIndex <= |log|
    requires n.log == Trim(log, n.lastIncludedIndex) && NodeAll(ok, n)
    ensures |n.log| > 0 && n.commitIndex <= LastLogIndex(n)
    ensures var sent := Messages(n.lastApplied + 1, Batch(n));
      forall k | 0 <= k < |sent| :: TrueMsg(log[..n.commitIndex], ok, sent[k])
  {
    var sent := Messages(n.lastApplied + 1, Batch(n));
    forall k | 0 <= k < |sent| ensures TrueMsg(log[..n.commitIndex], ok, sent[k]) {
      var at := n.lastApplied + 1 + k;
      TrimAt(log, n.lastIncludedIndex, at);
      assert Batch(n)[k] == n.log[at - n.lastIncludedIndex];
    }
  }

  lemma CrashHeld(w: World, a: C.State, x: Happening, b: C.State, ok: Command -> bool)
    requires Good(w, a, ok) && Possible(w, x) && x.Raft? && x.event.Crash?
    requires C.Inv(b) && C.Grows(a, b) && Follows(After(w, x).cluster, b)
    ensures |b.peers| == |w.services| && Held(After(w, x), b, ok, Where(x))
  {
    hide C.Inv, C.Grows, Replay;
    var i, w' := Where(x), After(w, x);
    var n, n' := w.cluster.nodes[i], w'.cluster.nodes[i];
    assert NodeRel(n, a, i) && NodeRel(n', b, i) && Held(w, a, ok, i);
    var k := n.lastIncludedIndex;
    CommittedPrefixStays(n, a, n', b, i, k);
    assert b.peers[i].log[..k][..k] == b.peers[i].log[..k];
  }

  /** The service saves its own state at the index it has read. */
  lemma CompactHeld(w: World, a: C.State, x: Happening, b: C.State, ok: Command -> bool)
    requires Good(w, a, ok) && Possible(w, x) && x.Raft? && x.event.Compact?
    requires C.Inv(b) && C.Grows(a, b) && Follows(After(w, x).cluster, b)
    ensures |b.peers| == |w.services| && Held(After(w, x), b, ok, Where(x))
  {
    hide C.Inv, C.Grows, Replay;
    var i, w' := Where(x), After(w, x);
    var s, n, n' := w.services[i], w.cluster.nodes[i], w'.cluster.nodes[i];
    assert NodeRel(n, a, i) && NodeRel(n', b, i) && Held(w, a, ok, i);
    CommittedPrefixStays(n, a, n', b, i, n.lastApplied);
    var l, m := a.peers[i].log, b.peers[i].log;
    Carried(s, n, l, m, n.lastApplied, ok);
    assert m[..n.lastApplied][..s.position] == m[..s.position];
  }

  /** An installed snapshot stands for a prefix of the follower's own log. */
  lemma InstalledPrefix(a: C.State, args: SnapshotArgs, n': Node, b: C.State, i: nat)
    requires SnapshotArgsOk(args, a) && C.Inv(b) && C.Grows(a, b) && NodeRel(n', b, i)
    requires args.lastIncludedIndex <= n'.commitIndex
    ensures args.lastIncludedIndex <= |b.peers[i].log|
    ensures b.peers[i].log[..args.lastIncludedIndex] == a.lead[args.term].log[..args.lastIncludedIndex]
  {
    var k, m := args.lastIncludedIndex, b.peers[i].log;
    assert C.CommitOk(b, i);
    C.PrefixCommittedShorter(b, m[..n'.commitIndex], m[..k], b.peers[i].term);
    C.PrefixCommittedGrows(a, b, a.lead[args.term].log[..k], args.term, args.term);
    C.CommittedAgree(b, m[..k], a.lead[args.term].log[..k], b.peers[i].term, args.term);
  }

  lemma InstallFields(node: Node, args: SnapshotArgs)
    requires |node.log| > 0 && Installs(node, args)
    ensures var n := InstallSnapshot(node, args).0;
      && n.lastIncludedIndex == args.lastIncludedIndex && n.snapshot == args.data
      && n.lastApplied == Higher(node.lastApplied, args.lastIncludedIndex)
      && n.commitIndex == Higher(node.commitIndex, args.lastIncludedIndex)
  {
  }

  lemma InstallHeld(w: World, a: C.State, x: Happening, b: C.State, ok: Command -> bool)
    requires Good(w, a, ok) && Possible(w, x) && x.Raft? && x.event.Deliver? && x.event.message.InstallReq?
    requires Installs(w.cluster.nodes[Where(x)], x.event.message.install)
    requires C.Inv(b) && C.Grows(a, b) && Follows(After(w, x).cluster, b)
    ensures |b.peers| == |w.services| && Held(After(w, x), b, ok, Where(x))
  {
    hide C.Inv, C.Grows, Replay, InStep, InstallSnapshot, C.PrefixCommitted;
    var i, w', args := Where(x), After(w, x), x.event.message.install;
    var s, n, n' := w.services[i], w.cluster.nodes[i], w'.cluster.nodes[i];
    InstallFields(n, args);
    assert NodeRel(n, a, i) && NodeRel(n', b, i) && Held(w, a, ok, i) && MessageOk(a, x.event.message);
    CommittedPrefixStays(n, a, n', b, i, n.lastApplied);
    var l, m, k := a.peers[i].log, b.peers[i].log, args.lastIncludedIndex;
    Carried(s, n, l, m, n'.lastApplied, ok);
    InstalledPrefix(a, args, n', b, i);
    assert TrueInstall(a, args) && m[..n'.lastApplied][..k] == m[..k];
    SentInStep(s, [SnapshotMsg(k, args.data)], m[..n'.lastApplied], ok);
  }

  /** The server that takes the step. */
  lemma ActorHeld(w: World, a: C.State, x: Happening, b: C.State, ok: Command -> bool)
    requires Good(w, a, ok) && Possible(w, x) && x.Raft?
    requires C.Inv(b) && C.Grows(a, b) && Follows(After(w, x).cluster, b)
    ensures |b.peers| == |w.services| && Held(After(w, x), b, ok, Where(x))
  {
    hide Good, C.Inv, C.Grows, Follows, Held;
    match x.event
    case Apply(_) => ApplyHeld(w, a, x, b, ok);
    case Crash(_) => CrashHeld(w, a, x, b, ok);
    case Compact(_, _, _) => CompactHeld(w, a, x, b, ok);
    case Deliver(m) =>
      if m.InstallReq? && Installs(w.cluster.nodes[Where(x)], m.install) {
        InstallHeld(w, a, x, b, ok);
      } else {
        QuietHeld(w, a, x, b, ok);
      }
    case _ => QuietHeld(w, a, x, b, ok);
  }

  lemma QuietHeld(w: World, a: C.State, x: Happening, b: C.State, ok: Command -> bool)
    requires Good(w, a, ok) && Possible(w, x) && x.Raft?
    requires !x.event.Apply? && !x.event.Crash? && !x.event.Compact?
    requires x.event.Deliver? && x.event.message.InstallReq? ==>
      !Installs(w.cluster.nodes[Where(x)], x.event.message.install)
    requires C.Inv(b) && C.Grows(a, b) && Follows(After(w, x).cluster, b)
    ensures |b.peers| == |w.services| && Held(After(w, x), b, ok, Where(x))
  {
    hide C.Inv, C.Grows, Replay, InStep, Receive;
    var n := w.cluster.nodes[Where(x)];
    assert NodeRel(n, a, Where(x)) && Held(w, a, ok, Where(x));
    if x.event.Deliver? {
      ReceiveQuiet(n, x.event.message);
    }
    KeptHeld(w, a, After(w, x), b, ok, Where(x));
  }

  /** Snapshots are sent by leaders only, and each is the one the leader has saved. */
  lemma NewInstall(s: Cluster.State, e: Event, m: Message)
    requires Enabled(s, e) && InRange(s, e) && m in Step(s, e).net && m !in s.net && m.InstallReq?
    ensures e.Send? && s.nodes[e.server].role == Leader
    ensures var n := s.nodes[e.server];
      m.install == SnapshotArgs(n.currentTerm, e.server, n.lastIncludedIndex, n.lastIncludedTerm, n.snapshot)
  {
  }

  lemma InstallsTrue(w: World, a: C.State, x: Happening, b: C.State, ok: Command -> bool, m: Message)
    requires Good(w, a, ok) && Possible(w, x) && x.Raft? && m in After(w, x).cluster.net && m.InstallReq?
    requires C.Inv(b) && C.Grows(a, b) && Follows(After(w, x).cluster, b)
    requires |b.peers| == |w.services| && Held(After(w, x), b, ok, Where(x))
    ensures TrueInstall(b, m.install)
  {
    hide C.Inv, Replay, InStep;
    if m in w.cluster.net {
      var t, k := m.install.term, m.install.lastIncludedIndex;
      assert TrueInstall(a, m.install) && C.ReignGrows(a.lead, b.lead, t);
      assert a.lead[t].log[..k] == b.lead[t].log[..k];
    } else {
      NewInstall(w.cluster, x.event, m);
      assert NodeRel(After(w, x).cluster.nodes[Where(x)], b, Where(x));
    }
  }

  // ---------------------------------------------------------------- every happening

  /** `w` follows a protocol state that extends `a`, with every service in step. */
  ghost predicate Matches(w: World, a: C.State, ok: Command -> bool) {
    exists b :: C.Grows(a, b) && Good(w, b, ok)
  }

  lemma RaftKeeps(w: World, a: C.State, x: Happening, ok: Command -> bool)
    requires Good(w, a, ok) && Possible(w, x) && x.Raft? && (x.event.Submit? ==> ok(x.event.command))
    ensures Matches(After(w, x), a, ok)
  {
    hide C.Inv, C.Grows, NodeRel, InStep, Held, StateAll;
    StepFollows(w.cluster, a, x.event);
    var b :| C.Inv(b) && C.Grows(a, b) && Follows(Step(w.cluster, x.event), b);
    var w' := After(w, x);
    ActorHeld(w, a, x, b, ok);
    forall p: nat | p < |w'.services| ensures Held(w', b, ok, p) {
      if p != Where(x) {
        OtherHeld(w, a, x, b, ok, p);
      }
    }
    forall m | m in w'.cluster.net && m.InstallReq? ensures TrueInstall(b, m.install) {
      InstallsTrue(w, a, x, b, ok, m);
    }
    StepAll(ok, w.cluster, x.event);
    assert Good(w', b, ok);
  }

  lemma OtherHeld(w: World, a: C.State, x: Happening, b: C.State, ok: Command -> bool, p: nat)
    requires Good(w, a, ok) && Possible(w, x) && x.Raft? && p < |w.services| && p != Where(x)
    requires C.Inv(b) && C.Grows(a, b) && Follows(After(w, x).cluster, b)
    ensures |b.peers| == |w.services| && Held(After(w, x), b, ok, p)
  {
    hide C.Inv, C.Grows, InStep, Replay;
    assert NodeRel(w.cluster.nodes[p], a, p);
    KeptHeld(w, a, After(w, x), b, ok, p);
  }

  /** What the service does by itself. */
  lemma ServiceKeeps(w: World, a: C.State, x: Happening, ok: Command -> bool)
    requires Good(w, a, ok) && Possible(w, x) && !x.Raft? && Orderly(w, x)
    ensures Good(After(w, x), a, ok)
  {
    hide C.Inv, Follows, InStep, Replay, StateAll, ReadAt, OnPoll, CloseAll, Registered;
    var i, w' := Where(x), After(w, x);
    var s, n := w.services[i], w.cluster.nodes[i];
    assert Held(w, a, ok, i);
    var log := a.peers[i].log[..n.lastApplied];
    match x {
      case Read(_, k) => ReadInStep(s, k, log, ok);
      case Register(_, index, startTerm, id) => SubmitInStep(s, log, ok, index, startTerm, id);
      case Poll(_, j) => PollInStep(s, log, ok, j, n.role != Leader || n.currentTerm != s.threads[j].startTerm);
      case Close(_) => SubmitInStep(s, log, ok, 0, 0, 0);
    }
    forall p: nat | p < |w'.services| ensures Held(w', a, ok, p) {
      assert Held(w, a, ok, p);
    }
  }

  lemma HappeningKeeps(w: World, a: C.State, x: Happening, ok: Command -> bool)
    requires Good(w, a, ok) && Possible(w, x) && Orderly(w, x)
    requires x.Raft? && x.event.Submit? ==> ok(x.event.command)
    ensures Matches(After(w, x), a, ok)
  {
    hide Good, C.Grows;
    if x.Raft? {
      RaftKeeps(w, a, x, ok);
    } else {
      ServiceKeeps(w, a, x, ok);
      C.GrowsReflexive(a);
    }
  }

  // ---------------------------------------------------------------- runs with orderly delivery

  /** A full-log history behind a run, in which every service and every snapshot is in step. */
  ghost predicate StepHistory(run: seq<World>, h: seq<C.State>, ok: Command -> bool) {
    && |h| == |run|
    && (forall i: nat {:trigger Good(run[i], h[i], ok)} | i < |run| :: Good(run[i], h[i], ok))
    && (forall i: nat, j: nat {:trigger C.Grows(h[i], h[j])} | i <= j < |run| :: C.Grows(h[i], h[j]))
  }

  lemma StepHistoryExtends(run: seq<World>, h: seq<C.State>, w: World, b: C.State, ok: Command -> bool)
    requires StepHistory(run, h, ok) && |run| > 0
    requires Good(w, b, ok) && C.Grows(h[|h| - 1], b)
    ensures StepHistory(run + [w], h + [b], ok)
  {
    hide C.Grows, Good;
    var r, g, k := run + [w], h + [b], |run|;
    forall i: nat | i < |r| ensures Good(r[i], g[i], ok) {
      assert i < k ==> Good(run[i], h[i], ok);
    }
    forall i: nat, j: nat | i <= j < |r| ensures C.Grows(g[i], g[j]) {
      if j < k {
        assert C.Grows(h[i], h[j]);
      } else if i < k {
        assert C.Grows(h[i], h[k - 1]);
        C.GrowsTransitive(h[i], h[k - 1], b);
      } else {
        C.GrowsReflexive(b);
      }
    }
  }

  lemma InitialGood(w: World, ok: Command -> bool)
    requires Initial(w)
    ensures exists a :: Good(w, a, ok)
  {
    InitFollows(w.cluster);
    var a :| C.Inv(a) && Follows(w.cluster, a);
    InitAll(ok, w.cluster);
    forall p: nat | p < |w.services| ensures Held(w, a, ok, p) {
      assert NodeRel(w.cluster.nodes[p], a, p);
    }
    assert Good(w, a, ok);
  }

  /** As long as each command that is read is the next one, every store is the replay of its
      server's full log up to the index it has read, every snapshot that is saved, sent or on
      its way to a service is the replay of the prefix it stands for, and every result is true. */
  lemma {:induction false} InOrderHolds(run: seq<World>, xs: seq<Happening>, ok: Command -> bool)
    returns (h: seq<C.State>)
    requires Trace(run, xs) && InOrder(run, xs) && Submits(xs, ok)
    ensures StepHistory(run, h, ok)
    decreases |xs|
  {
    hide C.Inv, C.Grows, Good, Possible, Orderly, After, Initial;
    var k := |xs|;
    if k == 0 {
      InitialGood(run[0], ok);
      var a :| Good(run[0], a, ok);
      h := [a];
      C.GrowsReflexive(a);
    } else {
      var g := InOrderHolds(run[..k], xs[..k - 1], ok);
      assert Good(run[..k][k - 1], g[k - 1], ok);
      assert Orderly(run[k - 1], xs[k - 1]) && run[k] == After(run[k - 1], xs[k - 1]);
      HappeningKeeps(run[k - 1], g[k - 1], xs[k - 1], ok);
      var b :| C.Grows(g[k - 1], b) && Good(run[k], b, ok);
      StepHistoryExtends(run[..k], g, run[k], b, ok);
      h := g + [b];
      assert run == run[..k] + [run[k]];
    }
  }

  lemma AppliedAgree(x: Node, a: C.State, p: nat, y: Node, b: C.State, q: nat, n: nat)
    requires C.Inv(a) && C.Inv(b) && C.Grows(a, b) && NodeRel(x, a, p) && NodeRel(y, b, q)
    requires n <= x.lastApplied && n <= y.lastApplied
    ensures a.peers[p].log[..n] == b.peers[q].log[..n]
  {
    var l, m := a.peers[p].log, b.peers[q].log;
    assert C.CommitOk(a, p) && C.CommitOk(b, q);
    C.PrefixCommittedShorter(a, l[..x.commitIndex], l[..n], a.peers[p].term);
    C.PrefixCommittedShorter(b, m[..y.commitIndex], m[..n], b.peers[q].term);
    C.PrefixCommittedGrows(a, b, l[..n], a.peers[p].term, a.peers[p].term);
    C.CommittedAgree(b, l[..n], m[..n], a.peers[p].term, b.peers[q].term);
  }

  /** Services that have read up to the same index hold equal stores, at whatever moments of
      the run they are compared. */
  lemma StoresAgree(run: seq<World>, xs: seq<Happening>, i: nat, j: nat, p: nat, q: nat)
    requires Trace(run, xs) && InOrder(run, xs) && i <= j < |run|
    requires p < |run[i].services| && q < |run[j].services|
    requires run[i].services[p].position == run[j].services[q].position
    ensures run[i].services[p].store == run[j].services[q].store
  {
    hide C.Inv, C.Grows, NodeRel, StateAll, Replay;
    var h := InOrderHolds(run, xs, _ => true);
    assert Good(run[i], h[i], _ => true) && Good(run[j], h[j], _ => true) && C.Grows(h[i], h[j]);
    assert Held(run[i], h[i], _ => true, p) && Held(run[j], h[j], _ => true, q);
    var x, y, n := run[i].cluster.nodes[p], run[j].cluster.nodes[q], run[i].services[p].position;
    assert NodeRel(x, h[i], p) && NodeRel(y, h[j], q);
    AppliedAgree(x, h[i], p, y, h[j], q, n);
    assert h[i].peers[p].log[..x.lastApplied][..n] == h[i].peers[p].log[..n];
    assert h[j].peers[q].log[..y.lastApplied][..n] == h[j].peers[q].log[..n];
  }

  predicate Names(names: int -> Request, c: Command) {
    c.Do? ==> c.request == names(c.id)
  }

  /** Submit that returns OK returns what the operation it started, and no other, answers at the
      index Start gave it, when the cluster's log is replayed up to there; whoever else
      registered, overwrote or removed registrations in between. */
  lemma SubmitReturnsOwnReply(run: seq<World>, xs: seq<Happening>, names: int -> Request, p: nat, j: nat)
    returns (h: seq<C.State>)
    requires Trace(run, xs) && InOrder(run, xs) && Submits(xs, c => Names(names, c))
    requires p < |run[|xs|].services| && j < |run[|xs|].services[p].threads|
    requires run[|xs|].services[p].threads[j].outcome.Ok?
    ensures StepHistory(run, h, c => Names(names, c)) && p < |h[|xs|].peers| && p < |run[|xs|].cluster.nodes|
    ensures var t, log := run[|xs|].services[p].threads[j], h[|xs|].peers[p].log;
      && 0 < t.index <= run[|xs|].cluster.nodes[p].lastApplied <= |log|
      && log[t.index - 1].command == Do(t.id, t.startTerm, names(t.id))
      && t.outcome.result == Execute(Replay(map[], log[..t.index - 1]), names(t.id)).1
  {
    hide C.Inv, C.Grows, Follows, StateAll, Replay, Execute;
    h := InOrderHolds(run, xs, c => Names(names, c));
    var w, a := run[|xs|], h[|xs|];
    assert Good(w, a, c => Names(names, c));
    assert Held(w, a, c => Names(names, c), p);
    var t, log, n := w.services[p].threads[j], a.peers[p].log, w.cluster.nodes[p].lastApplied;
    assert ThreadOk(log[..n], c => Names(names, c), t);
    assert log[..n][..t.index - 1] == log[..t.index - 1];
  }
}
