/** Nothing is invented: whatever holds of every command passed to Start holds of every
    command in the logs, in the network and handed to the services. */
module Submitted {
  import opened RaftLog
  import opened RaftNode
  import opened Cluster

  /** Position 0 of a compacted log is the sentinel. */
  ghost predicate All(ok: Command -> bool, log: seq<Entry>) {
    forall k | 0 < k < |log| :: ok(log[k].command)
  }

  ghost predicate Sent(ok: Command -> bool, m: Message) {
    m.AppendReq? ==> forall k | 0 <= k < |m.append.entries| :: ok(m.append.entries[k].command)
  }

  ghost predicate NodeAll(ok: Command -> bool, node: Node) {
    All(ok, node.log) && All(ok, Load(node.persisted).log)
  }

  ghost predicate StateAll(ok: Command -> bool, s: State) {
    && (forall i | 0 <= i < |s.nodes| :: NodeAll(ok, s.nodes[i]))
    && (forall m | m in s.net :: Sent(ok, m))
    && (forall x | x in s.applied :: ok(x.command))
  }

  lemma {:induction false} SpliceAll(ok: Command -> bool, log: seq<Entry>, at: nat, entries: seq<Entry>)
    requires 0 < at <= |log| && All(ok, log) && forall k | 0 <= k < |entries| :: ok(entries[k].command)
    ensures All(ok, Splice(log, at, entries))
    decreases |entries|
  {
    if entries != [] {
      if at < |log| && log[at].term == entries[0].term {
        SpliceAll(ok, log, at + 1, entries[1..]);
      } else {
        SpliceAll(ok, log[..at] + [entries[0]], at + 1, entries[1..]);
      }
    }
  }

  lemma AppendAll(ok: Command -> bool, node: Node, args: AppendArgs)
    requires |node.log| > 0 && NodeAll(ok, node)
    requires forall k | 0 <= k < |args.entries| :: ok(args.entries[k].command)
    ensures NodeAll(ok, AppendEntries(node, args).0)
  {
    var n := Recognise(node, args.term);
    if n.lastIncludedIndex <= args.prevLogIndex <= LastLogIndex(n) {
      SpliceAll(ok, n.log, args.prevLogIndex - n.lastIncludedIndex + 1, args.entries);
    }
  }

  lemma ReceiveAll(ok: Command -> bool, node: Node, m: Message)
    requires |node.log| > 0 && NodeAll(ok, node) && Sent(ok, m)
    requires m.AppendRep? || m.InstallRep? ==>
      m.src < |node.nextIndex| == |node.matchIndex| && node.lastIncludedIndex <= node.commitIndex
    ensures NodeAll(ok, Receive(node, m).0)
    ensures forall x | x in Receive(node, m).1 :: Sent(ok, x)
  {
    if m.AppendReq? {
      hide AppendEntries;
      AppendAll(ok, node, m.append);
    }
  }

  lemma ReplicateAll(ok: Command -> bool, node: Node, me: nat, peer: nat)
    requires |node.log| > 0 && NodeAll(ok, node) && peer < |node.nextIndex|
    requires 1 <= node.nextIndex[peer] <= LastLogIndex(node) + 1
    ensures Sent(ok, Wire(me, peer, Replicate(node, me, peer)))
  {
  }

  lemma BatchAll(ok: Command -> bool, node: Node)
    requires NodeAll(ok, node) && node.lastIncludedIndex <= node.lastApplied <= node.commitIndex
    requires |node.log| > 0 && node.commitIndex <= LastLogIndex(node)
    ensures forall k | 0 <= k < |Batch(node)| :: ok(Batch(node)[k].command)
  {
  }

  /** Each step keeps it, whatever was submitted so far. */
  lemma StepAll(ok: Command -> bool, s: State, e: Event)
    requires StateAll(ok, s) && Enabled(s, e) && InRange(s, e) && (e.Submit? ==> ok(e.command))
    ensures StateAll(ok, Step(s, e))
  {
    hide Receive, Replicate, Batch;
    var node := s.nodes[Actor(e)];
    match e
    case Deliver(m) => ReceiveAll(ok, node, m);
    case Send(i, peer) => ReplicateAll(ok, node, i, peer);
    case Apply(_) => BatchAll(ok, node);
    case _ =>
  }

  lemma InitAll(ok: Command -> bool, s: State)
    requires Init(s)
    ensures StateAll(ok, s)
  {
  }

  /** A run of the cluster with the events between its states. */
  ghost predicate Steps(run: seq<State>, es: seq<Event>) {
    && |run| == |es| + 1 && Init(run[0])
    && forall i | 0 <= i < |es| :: Enabled(run[i], es[i]) && InRange(run[i], es[i]) && run[i + 1] == Step(run[i], es[i])
  }

  lemma {:induction false} StepsAll(ok: Command -> bool, run: seq<State>, es: seq<Event>)
    requires Steps(run, es) && forall i | 0 <= i < |es| :: es[i].Submit? ==> ok(es[i].command)
    ensures StateAll(ok, run[|es|])
    decreases |es|
  {
    hide Enabled, InRange, Step, StateAll, Init;
    var k := |es|;
    if k == 0 {
      InitAll(ok, run[0]);
    } else {
      StepsAll(ok, run[..k], es[..k - 1]);
      StepAll(ok, run[k - 1], es[k - 1]);
    }
  }

  /** Validity: every command that is handed to a service was passed to Start before. */
  lemma OnlySubmitted(run: seq<State>, es: seq<Event>, x: Applied)
    requires Steps(run, es) && x in run[|es|].applied
    ensures exists i | 0 <= i < |es| :: es[i].Submit? && es[i].command == x.command
  {
    hide Steps;
    StepsAll(c => exists i | 0 <= i < |es| :: es[i].Submit? && es[i].command == c, run, es);
  }
}
