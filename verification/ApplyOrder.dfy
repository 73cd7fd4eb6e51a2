/** When the apply channel is orderly: if messages arrive in the order in which they were sent,
    the only thing that puts a service out of step is a snapshot older than what was handed
    to it before. */
module ApplyOrder {
  import opened KvStore
  import opened RaftLog
  import opened RaftNode
  import opened Cluster
  import opened Rsm
  import C = Consensus
  import opened ClusterProof
  import opened RaftSafety
  import opened ReplicatedStore

  // ---------------------------------------------------------------- every run

  /** A service has not read, and is not sent, anything beyond `n`. */
  ghost predicate Behind(s: Service, n: nat) {
    s.position <= n && forall k | 0 <= k < |s.queue| :: s.queue[k].index <= n
  }

  ghost predicate AllBehind(w: World) {
    && |w.services| == |w.cluster.nodes|
    && forall p: nat | p < |w.services| :: Behind(w.services[p], w.cluster.nodes[p].lastApplied)
  }

  lemma BehindKeeps(w: World, x: Happening)
    requires AllBehind(w) && Possible(w, x)
    ensures AllBehind(After(w, x))
  {
    hide Receive, Batch, ReadAt;
    var i, w' := Where(x), After(w, x);
    assert Behind(w.services[i], w.cluster.nodes[i].lastApplied);
    if x.Raft? {
      ServedBehind(w, x);
    } else if x.Read? {
      ReadBehind(w.services[i], x.k, w.cluster.nodes[i].lastApplied);
    }
    forall p: nat | p < |w'.services| ensures Behind(w'.services[p], w'.cluster.nodes[p].lastApplied) {
      assert Behind(w.services[p], w.cluster.nodes[p].lastApplied);
    }
  }

  lemma ReadBehind(s: Service, k: nat, n: nat)
    requires Behind(s, n) && k < |s.queue|
    ensures Behind(ReadAt(s, k), n)
  {
    var rest := s.queue[..k] + s.queue[k + 1..];
    assert forall j | 0 <= j < |rest| :: rest[j] == if j < k then s.queue[j] else s.queue[j + 1];
    assert ReadAt(s, k).queue == rest;
  }

  lemma ServedBehind(w: World, x: Happening)
    requires AllBehind(w) && Possible(w, x) && x.Raft?
    ensures Behind(After(w, x).services[Where(x)], After(w, x).cluster.nodes[Where(x)].lastApplied)
  {
    var node, e := w.cluster.nodes[Where(x)], x.event;
    assert Behind(w.services[Where(x)], node.lastApplied);
    if e.Deliver? {
      hide InstallSnapshot;
      if e.message.InstallReq? && Installs(node, e.message.install) {
        InstallFields(node, e.message.install);
      } else {
        hide Receive;
        ReceiveQuiet(node, e.message);
      }
    }
  }

  lemma TracePrefix(run: seq<World>, xs: seq<Happening>)
    requires Trace(run, xs) && |xs| > 0
    ensures Trace(run[..|xs|], xs[..|xs| - 1])
  {
    hide Possible, After;
  }

  /** What Raft does in a run of the whole system is a run of the cluster. */
  lemma {:induction false} ClusterRun(run: seq<World>, xs: seq<Happening>) returns (r: seq<State>)
    requires Trace(run, xs)
    ensures Cluster.Run(r) && r[|r| - 1] == run[|xs|].cluster
    decreases |xs|
  {
    var k := |xs|;
    if k == 0 {
      r := [run[0].cluster];
    } else {
      TracePrefix(run, xs);
      r := ClusterRun(run[..k], xs[..k - 1]);
      assert Possible(run[k - 1], xs[k - 1]) && run[k] == After(run[k - 1], xs[k - 1]);
      if xs[k - 1].Raft? {
        assert Cluster.Next(run[k - 1].cluster, run[k].cluster);
        r := r + [run[k].cluster];
      }
    }
  }

  lemma {:induction false} NeverAhead(run: seq<World>, xs: seq<Happening>)
    requires Trace(run, xs)
    ensures AllBehind(run[|xs|])
    decreases |xs|
  {
    hide Possible, After;
    var k := |xs|;
    if k > 0 {
      TracePrefix(run, xs);
      NeverAhead(run[..k], xs[..k - 1]);
      BehindKeeps(run[k - 1], xs[k - 1]);
    }
  }

  /** In every run, orderly or not, Raft can take the snapshot of a service that saves its own
      state at the index it has read. */
  lemma ServiceMaySave(run: seq<World>, xs: seq<Happening>, p: nat)
    requires Trace(run, xs) && p < |run[|xs|].services|
    ensures var s := run[|xs|].services[p];
      Possible(run[|xs|], Raft(Compact(p, s.position, s.store)))
  {
    NeverAhead(run, xs);
    var w := run[|xs|];
    assert Behind(w.services[p], w.cluster.nodes[p].lastApplied);
    var r := ClusterRun(run, xs);
    IndexInvariant(r, |r| - 1, p);
  }

  // ---------------------------------------------------------------- one read

  /** A service in step stays right through a read exactly when the message is the next command,
      a snapshot, or a command that has the effect here that it has in its own place. */
  lemma ReadExactly(w: World, a: C.State, x: Happening, ok: Command -> bool)
    requires Good(w, a, ok) && Possible(w, x) && x.Read?
    ensures var m, s := w.services[x.server].queue[x.k], After(w, x).services[x.server];
      var log := a.peers[x.server].log;
      && w.services[x.server].position <= |log| && m.index <= |log| && (m.CommandMsg? ==> 0 < m.index)
      && s.position == m.index
      && (s.store == Replay(map[], log[..m.index]) <==> Harmless(w.services[x.server], m, log))
  {
    hide C.Inv, Follows, ReadAt, InStep, ApplyOne, Replay;
    var s, n, log := w.services[x.server], w.cluster.nodes[x.server].lastApplied, a.peers[x.server].log;
    assert Held(w, a, ok, x.server);
    Rsm.ReadExactly(s, x.k, log[..n], ok);
    var m := s.queue[x.k];
    assert log[..n][..m.index] == log[..m.index];
    ReadsBelow(s, log, n, ok);
    assert m.CommandMsg? ==> log[..n][..m.index - 1] == log[..m.index - 1];
  }

  lemma ReadsBelow(s: Service, log: seq<Entry>, n: nat, ok: Command -> bool)
    requires n <= |log| && InStep(s, log[..n], ok)
    ensures s.position <= n && log[..n][..s.position] == log[..s.position]
  {
  }

  /** What the service then saves is right exactly when its store is, or when Raft has a later
      snapshot already. */
  lemma SavedExactly(w: World, a: C.State, x: Happening, ok: Command -> bool)
    requires Good(w, a, ok) && Possible(w, x) && x.Read?
    requires var s := After(w, x).services[x.server]; Possible(After(w, x), Raft(Compact(x.server, s.position, s.store)))
    ensures var s, m := w.services[x.server], w.services[x.server].queue[x.k];
      var t := After(w, x).services[x.server];
      var n := After(After(w, x), Raft(Compact(x.server, t.position, t.store))).cluster.nodes[x.server];
      var log := a.peers[x.server].log;
      && s.position <= |log| && m.index <= |log| && (m.CommandMsg? ==> 0 < m.index) && n.lastIncludedIndex <= |log|
      && (n.snapshot == Replay(map[], log[..n.lastIncludedIndex])
          <==> m.index <= w.cluster.nodes[x.server].lastIncludedIndex || Harmless(s, m, log))
  {
    hide C.Inv, Follows, ReadAt, InStep, ApplyOne, Replay, Harmless;
    ReadExactly(w, a, x, ok);
    assert Held(w, a, ok, x.server);
  }

  // ---------------------------------------------------------------- first in, first out

  /** Read in order, the messages lead from index `at` to index `end` without a gap. */
  predicate Lined(at: nat, queue: seq<ApplyMsg>, end: nat)
    decreases |queue|
  {
    if queue == [] then at == end
    else
      && (if queue[0].CommandMsg? then queue[0].index == at + 1 else queue[0].index >= at)
      && Lined(queue[0].index, queue[1..], end)
  }

  lemma {:induction false} LinedAppend(at: nat, queue: seq<ApplyMsg>, mid: nat, more: seq<ApplyMsg>, end: nat)
    requires Lined(at, queue, mid) && Lined(mid, more, end)
    ensures Lined(at, queue + more, end)
    decreases |queue|
  {
    if queue == [] {
      assert queue + more == more;
    } else {
      LinedAppend(queue[0].index, queue[1..], mid, more, end);
      assert (queue + more)[1..] == queue[1..] + more;
    }
  }

  lemma {:induction false} MessagesLined(at: nat, batch: seq<Entry>)
    ensures Lined(at, Messages(at + 1, batch), at + |batch|)
    decreases |batch|
  {
    if batch != [] {
      MessagesLined(at + 1, batch[1..]);
      assert Messages(at + 1, batch)[1..] == Messages(at + 2, batch[1..]);
    }
  }

  ghost predicate AllLined(w: World) {
    && |w.services| == |w.cluster.nodes|
    && forall p: nat | p < |w.services| ::
         Lined(w.services[p].position, w.services[p].queue, w.cluster.nodes[p].lastApplied)
  }

  lemma LinedOrderly(w: World, x: Happening)
    requires AllLined(w) && Possible(w, x) && Fifo(x)
    ensures Orderly(w, x)
  {
  }

  lemma RaftLined(w: World, x: Happening)
    requires AllLined(w) && Possible(w, x) && x.Raft? && !RollsBack(w, x)
    ensures var s, n := After(w, x).services[Where(x)], After(w, x).cluster.nodes[Where(x)];
      Lined(s.position, s.queue, n.lastApplied)
  {
    var s, n := w.services[Where(x)], w.cluster.nodes[Where(x)];
    assert Lined(s.position, s.queue, n.lastApplied);
    match x.event
    case Apply(_) =>
      MessagesLined(n.lastApplied, Batch(n));
      LinedAppend(s.position, s.queue, n.lastApplied, Messages(n.lastApplied + 1, Batch(n)), n.commitIndex);
    case Deliver(m) =>
      if m.InstallReq? && Installs(n, m.install) {
        var k := m.install.lastIncludedIndex;
        SnapshotLined(n.lastApplied, k, m.install.data);
        LinedAppend(s.position, s.queue, n.lastApplied, [SnapshotMsg(k, m.install.data)], k);
      } else {
        hide Receive;
        ReceiveQuiet(n, m);
      }
    case _ =>
  }

  lemma SnapshotLined(at: nat, k: nat, data: Store)
    requires at <= k
    ensures Lined(at, [SnapshotMsg(k, data)], k)
  {
    assert Lined(k, [SnapshotMsg(k, data)][1..], k);
  }

  lemma LinedKeeps(w: World, x: Happening)
    requires AllLined(w) && Possible(w, x) && Fifo(x) && !RollsBack(w, x)
    ensures AllLined(After(w, x))
  {
    hide Receive, Batch;
    if x.Raft? {
      RaftLined(w, x);
    } else if x.Read? {
      var s := w.services[x.server];
      assert s.queue[..0] + s.queue[1..] == s.queue[1..];
    }
  }

  /** If messages arrive in the order in which they were sent, and no server installs a snapshot
      older than what it handed over before, every command that is read is the next one. */
  lemma {:induction false} FifoInOrder(run: seq<World>, xs: seq<Happening>)
    requires Trace(run, xs)
    requires forall i | 0 <= i < |xs| :: Fifo(xs[i]) && !RollsBack(run[i], xs[i])
    ensures InOrder(run, xs) && AllLined(run[|xs|])
    decreases |xs|
  {
    hide Possible, After, RollsBack, Orderly, Fifo, Lined;
    var k := |xs|;
    if k == 0 {
      InitialLined(run[0]);
    } else {
      TracePrefix(run, xs);
      FifoInOrder(run[..k], xs[..k - 1]);
      LinedOrderly(run[k - 1], xs[k - 1]);
      LinedKeeps(run[k - 1], xs[k - 1]);
      forall i | 0 <= i < k ensures Orderly(run[i], xs[i]) {
        assert i < k - 1 ==> Orderly(run[..k][i], xs[..k - 1][i]);
      }
    }
  }

  lemma InitialLined(w: World)
    requires Initial(w)
    ensures AllLined(w)
  {
  }

  // ---------------------------------------------------------------- the exact condition

  function Effect(store: Store, m: ApplyMsg): Store {
    match m
    case CommandMsg(_, command) => ApplyOne(store, command)
    case SnapshotMsg(_, data) => data
  }

  /** What a service holds once it has read everything it was sent. */
  function Drained(store: Store, queue: seq<ApplyMsg>): Store
    decreases |queue|
  {
    if queue == [] then store else Drained(Effect(store, queue[0]), queue[1..])
  }

  lemma {:induction false} DrainedLast(store: Store, queue: seq<ApplyMsg>, m: ApplyMsg)
    ensures Drained(store, queue + [m]) == Effect(Drained(store, queue), m)
    decreases |queue|
  {
    if queue == [] {
      assert Drained(Effect(store, m), [m][1..]) == Effect(store, m);
      assert queue + [m] == [m];
    } else {
      DrainedLast(Effect(store, queue[0]), queue[1..], m);
      assert (queue + [m])[1..] == queue[1..] + [m];
    }
  }

  /** True messages without a gap lead to the replay of the log up to where they end. */
  lemma {:induction false} DrainedReplays(at: nat, queue: seq<ApplyMsg>, end: nat, log: seq<Entry>, ok: Command -> bool)
    requires Lined(at, queue, end) && at <= |log| && forall k | 0 <= k < |queue| :: TrueMsg(log, ok, queue[k])
    ensures end <= |log| && Drained(Replay(map[], log[..at]), queue) == Replay(map[], log[..end])
    decreases |queue|
  {
    hide Replay, ApplyOne;
    if queue != [] {
      assert TrueMsg(log, ok, queue[0]);
      if queue[0].CommandMsg? {
        ReplayNext(log, at);
      }
      DrainedReplays(queue[0].index, queue[1..], end, log, ok);
    }
  }

  lemma Caught(w: World, a: C.State, p: nat)
    requires p < |w.services| == |w.cluster.nodes| == |a.peers| && Held(w, a, _ => true, p)
    requires Lined(w.services[p].position, w.services[p].queue, w.cluster.nodes[p].lastApplied)
    ensures Drained(w.services[p].store, w.services[p].queue)
         == Replay(map[], a.peers[p].log[..w.cluster.nodes[p].lastApplied])
  {
    hide Replay, ReplyAt, Lined;
    var n, s := w.cluster.nodes[p].lastApplied, w.services[p];
    DrainedReplays(s.position, s.queue, n, a.peers[p].log[..n], _ => true);
    assert a.peers[p].log[..n][..n] == a.peers[p].log[..n];
  }

  /** An old snapshot is the last thing that was sent. */
  lemma RolledBack(w: World, x: Happening, b: C.State)
    requires Possible(w, x) && RollsBack(w, x)
    requires |b.peers| == |w.services| && Held(After(w, x), b, _ => true, Where(x))
    ensures var s, k := After(w, x).services[Where(x)], x.event.message.install.lastIncludedIndex;
      k <= |b.peers[Where(x)].log| && Drained(s.store, s.queue) == Replay(map[], b.peers[Where(x)].log[..k])
  {
    hide Replay, ReplyAt, Receive, ThreadOk;
    var i, args := Where(x), x.event.message.install;
    var before, s, n := w.services[i], After(w, x).services[i], After(w, x).cluster.nodes[i];
    DrainedLast(before.store, before.queue, SnapshotMsg(args.lastIncludedIndex, args.data));
    var log := b.peers[i].log[..n.lastApplied];
    assert TrueMsg(log, _ => true, s.queue[|before.queue|]);
    assert log[..args.lastIncludedIndex] == b.peers[i].log[..args.lastIncludedIndex];
  }

  /** A service will be in step with its server's lastApplied, once it has read what it was
      sent, exactly when the step did not install a snapshot older than lastApplied, or the
      entries that this takes back change nothing. */
  lemma InStepExactly(run: seq<World>, xs: seq<Happening>, x: Happening, a: C.State, b: C.State)
    requires Trace(run, xs) && forall i | 0 <= i < |xs| :: Fifo(xs[i]) && !RollsBack(run[i], xs[i])
    requires Possible(run[|xs|], x) && x.Raft? && Good(run[|xs|], a, _ => true)
    requires C.Inv(b) && C.Grows(a, b) && Follows(After(run[|xs|], x).cluster, b)
    ensures Where(x) < |b.peers| && After(run[|xs|], x).cluster.nodes[Where(x)].lastApplied <= |b.peers[Where(x)].log|
    ensures var s, n, log := After(run[|xs|], x).services[Where(x)],
                             After(run[|xs|], x).cluster.nodes[Where(x)], b.peers[Where(x)].log;
      Drained(s.store, s.queue) == Replay(map[], log[..n.lastApplied])
      <==> (RollsBack(run[|xs|], x) ==>
              Replay(map[], log[..x.event.message.install.lastIncludedIndex]) == Replay(map[], log[..n.lastApplied]))
  {
    hide C.Inv, C.Grows, Follows, Replay, Receive, InStep;
    FifoInOrder(run, xs);
    ActorHeld(run[|xs|], a, x, b, _ => true);
    if RollsBack(run[|xs|], x) {
      RolledBack(run[|xs|], x, b);
    } else {
      RaftLined(run[|xs|], x);
      Caught(After(run[|xs|], x), b, Where(x));
    }
  }
}
