/** The runs behind the counterexamples, step by step, with two servers.

    A scene fixes the two servers, the two services and some messages in the network; each
    lemma of the first part takes a scene that some run reaches to the scene after one more
    event. In both runs server 0 is elected, appends an entry that it does not send, restarts,
    and leads term 2 over a follower whose log is empty. The follower turns down two
    heartbeats; one rejection arrives at once and makes the leader back up, its copy arrives
    much later. By then the leader has compacted its log, so that it answers the late rejection
    with its snapshot.

    In the first run (`LeaderSaves` to `Overtaken`) the snapshot is read by the follower's
    service before commands that were sent earlier. In the second (`LeaderReads` to `GapSaved`)
    messages arrive in order, but the snapshot is older than what the service has read. */
module DivergentRuns {
  import opened KvStore
  import opened Quorum
  import opened RaftLog
  import opened RaftNode
  import opened Cluster
  import opened Rsm
  import opened ReplicatedStore

  /** Two servers, messages that are in the network, the two services, and all commands that
      were passed to Start so far. */
  datatype Scene = Scene(x: Node, y: Node, net: set<Message>, u: Service, v: Service, cs: seq<Command>)

  ghost predicate Shows(w: World, s: Scene) {
    w.cluster.nodes == [s.x, s.y] && w.services == [s.u, s.v] && s.net <= w.cluster.net
  }

  /** Messages arrive in order, or no snapshot is older than what was handed over, or both. */
  datatype Delivery = FirstInFirstOut | NoneOlder | Regular

  ghost predicate Allowed(d: Delivery, w: World, h: Happening) {
    Possible(w, h) && (d == NoneOlder || Fifo(h)) && (d == FirstInFirstOut || !RollsBack(w, h))
  }

  /** Some run of that kind ends in the scene. */
  ghost predicate Reaches(d: Delivery, s: Scene) {
    exists run, hs :: Ends(d, run, hs, s)
  }

  ghost predicate Ends(d: Delivery, run: seq<World>, hs: seq<Happening>, s: Scene) {
    && Trace(run, hs) && Shows(run[|hs|], s) && Commands(hs) == s.cs
    && forall i | 0 <= i < |hs| :: Allowed(d, run[i], hs[i])
  }

  /** The commands that are passed to Start, in order. */
  function Commands(hs: seq<Happening>): seq<Command> {
    if hs == [] then [] else Commands(hs[..|hs| - 1]) + Submitted(hs[|hs| - 1])
  }

  function Submitted(h: Happening): seq<Command> {
    if h.Raft? && h.event.Submit? then [h.event.command] else []
  }

  lemma Extend(d: Delivery, s: Scene, h: Happening, t: Scene)
    requires Reaches(d, s) && t.cs == s.cs + Submitted(h)
    requires forall w | Shows(w, s) :: Allowed(d, w, h) && Shows(After(w, h), t)
    ensures Reaches(d, t)
  {
    hide Possible, After, Fifo, RollsBack;
    var run, hs :| Ends(d, run, hs, s);
    var w := run[|hs|];
    assert (hs + [h])[..|hs|] == hs;
    assert Ends(d, run + [After(w, h)], hs + [h], t);
  }

  // ---------------------------------------------------------------- one event each

  lemma Elect(d: Delivery, s: Scene, t: Scene, args: VoteArgs)
    requires Reaches(d, s) && s.x.role != Leader && |s.x.log| > 0
    requires t == s.(x := StartElection(s.x, 0), net := {VoteReq(0, 1, args)}) && args == VoteRequest(t.x, 0)
    ensures Reaches(d, t)
  {
    hide Reaches;
    assert VoteReq(0, 1, args) in Ballots(0, 2, args);
    Extend(d, s, Raft(Timeout(0)), t);
  }

  /** Server 0 receives an answer. */
  lemma Answer(d: Delivery, s: Scene, t: Scene, m: Message)
    requires Reaches(d, s) && m in s.net && m.dst == 0 && m.src == 1 && (m.VoteRep? || m.AppendRep?)
    requires |s.x.log| > 0 && s.x.lastIncludedIndex <= s.x.commitIndex && |s.x.nextIndex| == |s.x.matchIndex| == 2
    requires m.VoteRep? ==> Expected(s.x, m)
    requires t == s.(x := Receive(s.x, m).0, net := t.net) && t.net <= s.net
    ensures Reaches(d, t)
  {
    hide Reaches;
    Extend(d, s, Raft(Deliver(m)), t);
  }

  /** Server 1 receives a request. */
  lemma Ask(d: Delivery, s: Scene, t: Scene, m: Message)
    requires Reaches(d, s) && m in s.net && m.dst == 1 && m.src == 0 && |s.y.log| > 0
    requires m.VoteReq? || m.AppendReq? || m.InstallReq?
    requires m.InstallReq? && d != FirstInFirstOut ==> m.install.lastIncludedIndex >= s.y.lastApplied
    requires t == s.(y := Receive(s.y, m).0, net := t.net, v := Served(s.v, s.y, Deliver(m)))
    requires t.net <= s.net + Receive(s.y, m).1
    ensures Reaches(d, t)
  {
    hide Reaches;
    Extend(d, s, Raft(Deliver(m)), t);
  }

  lemma Send0(d: Delivery, s: Scene, t: Scene, out: Outgoing)
    requires Reaches(d, s) && s.x.role == Leader && |s.x.log| > 0 && |s.x.nextIndex| == 2
    requires 1 <= s.x.nextIndex[1] <= LastLogIndex(s.x) + 1 && out == Replicate(s.x, 0, 1)
    requires t == s.(net := t.net) && t.net <= s.net + {Wire(0, 1, out)}
    ensures Reaches(d, t)
  {
    hide Reaches;
    Extend(d, s, Raft(Send(0, 1)), t);
  }

  lemma Submit0(d: Delivery, s: Scene, t: Scene, c: Command)
    requires Reaches(d, s) && |s.x.log| > 0 && t == s.(x := Start(s.x, c).0, cs := s.cs + [c])
    ensures Reaches(d, t)
  {
    hide Reaches;
    Extend(d, s, Raft(Submit(0, c)), t);
  }

  lemma Crash0(d: Delivery, s: Scene, t: Scene)
    requires Reaches(d, s) && |s.x.log| > 0 && t == s.(x := Restart(s.x), u := Booted(Restart(s.x)))
    ensures Reaches(d, t)
  {
    hide Reaches;
    Extend(d, s, Raft(Crash(0)), t);
  }

  predicate Appliable(n: Node) {
    |n.log| > 0 && n.lastIncludedIndex <= n.lastApplied <= n.commitIndex <= LastLogIndex(n)
  }

  lemma Apply0(d: Delivery, s: Scene, t: Scene)
    requires Reaches(d, s) && Appliable(s.x)
    requires t == s.(x := s.x.(lastApplied := s.x.commitIndex), u := Served(s.u, s.x, Apply(0)))
    ensures Reaches(d, t)
  {
    hide Reaches;
    Extend(d, s, Raft(Apply(0)), t);
  }

  lemma Apply1(d: Delivery, s: Scene, t: Scene)
    requires Reaches(d, s) && Appliable(s.y)
    requires t == s.(y := s.y.(lastApplied := s.y.commitIndex), v := Served(s.v, s.y, Apply(1)))
    ensures Reaches(d, t)
  {
    hide Reaches;
    Extend(d, s, Raft(Apply(1)), t);
  }

  lemma Compact0(d: Delivery, s: Scene, t: Scene)
    requires Reaches(d, s) && Appliable(s.x) && s.u.position <= s.x.lastApplied
    requires t == s.(x := RaftNode.Snapshot(s.x, s.u.position, s.u.store))
    ensures Reaches(d, t)
  {
    hide Reaches;
    Extend(d, s, Raft(Compact(0, s.u.position, s.u.store)), t);
  }

  lemma Compact1(d: Delivery, s: Scene, t: Scene)
    requires Reaches(d, s) && Appliable(s.y) && s.v.position <= s.y.lastApplied
    requires t == s.(y := RaftNode.Snapshot(s.y, s.v.position, s.v.store))
    ensures Reaches(d, t)
  {
    hide Reaches;
    Extend(d, s, Raft(Compact(1, s.v.position, s.v.store)), t);
  }

  lemma Read0(d: Delivery, s: Scene, t: Scene)
    requires Reaches(d, s) && |s.u.queue| > 0 && t == s.(u := ReadAt(s.u, 0))
    ensures Reaches(d, t)
  {
    hide Reaches;
    Extend(d, s, Read(0, 0), t);
  }

  lemma Read1(d: Delivery, s: Scene, t: Scene, k: nat)
    requires Reaches(d, s) && k < |s.v.queue| && (k == 0 || (d == NoneOlder && s.v.queue[k].SnapshotMsg?))
    requires t == s.(v := ReadAt(s.v, k))
    ensures Reaches(d, t)
  {
    hide Reaches;
    Extend(d, s, Read(1, k), t);
  }

  // ---------------------------------------------------------------- a late rejection

  const Z := Entry(Nothing, 0)

  function Peer(term: nat, log: seq<Entry>, commit: nat, applied: nat): Node {
    Node(term, 0, log, 0, 0, commit, applied, [0, 0], [0, 0], Follower, 0, {}, Image(term, 0, log, 0, 0), map[])
  }

  function Head(term: nat, log: seq<Entry>, commit: nat, applied: nat, next: nat, match_: nat): Node {
    Node(term, 0, log, 0, 0, commit, applied, [term, next], [0, match_], Leader, 2, {}, Image(term, 0, log, 0, 0), map[])
  }

  function Having(store: Store, position: nat, queue: seq<ApplyMsg>): Service {
    Service(store, position, queue, map[], [])
  }

  const IDLE := Having(map[], 0, [])

  lemma TwoServers()
    ensures Servers(2) == {0, 1} && Servers(2) - {0} == {1}
  {
    assert Servers(2) == Servers(1) + {1} && Servers(1) == Servers(0) + {0};
  }

  lemma Evenly(n: nat)
    ensures seq<nat>(2, _ => n) == [n, n]
  {
  }

  const FRESH := Node(0, -1, [Z], 0, 0, 0, 0, [0, 0], [0, 0], Follower, 0, {}, Blank, map[])

  lemma Begin(d: Delivery)
    ensures Reaches(d, Scene(FRESH, FRESH, {}, IDLE, IDLE, []))
  {
    Evenly(0);
    assert FRESH == Boot(2, Blank, map[]);
    var run := [World(State([FRESH, FRESH], {}, {}, {}), [IDLE, IDLE])];
    assert Ends(d, run, [], Scene(FRESH, FRESH, {}, IDLE, IDLE, []));
  }

  /** Server 0 is elected in term 1. */
  lemma FirstLeader(d: Delivery)
    ensures Reaches(d, Scene(Head(1, [Z], 0, 0, 1, 0), Peer(1, [Z], 0, 0), {}, IDLE, IDLE, []))
  {
    hide Reaches;
    TwoServers();
    Evenly(0);
    Evenly(1);
    Begin(d);
    var x, args := StartElection(FRESH, 0), VoteArgs(1, 0, 0, 0);
    var q, m := VoteReq(0, 1, args), VoteRep(1, 0, 1, VoteReply(1, true));
    var s1 := Scene(x, FRESH, {q}, IDLE, IDLE, []);
    Elect(d, Scene(FRESH, FRESH, {}, IDLE, IDLE, []), s1, args);
    var s2 := Scene(x, Peer(1, [Z], 0, 0), {m}, IDLE, IDLE, []);
    Ask(d, s1, s2, q);
    Answer(d, s2, Scene(Head(1, [Z], 0, 0, 1, 0), s2.y, {}, IDLE, IDLE, []), m);
  }

  /** It appends `a`, which it does not send. */
  lemma FirstTerm(d: Delivery, a: Entry)
    requires a.term == 1
    ensures Reaches(d, Scene(Head(1, [Z, a], 0, 0, 1, 0), Peer(1, [Z], 0, 0), {}, IDLE, IDLE, [a.command]))
  {
    hide Reaches;
    FirstLeader(d);
    assert [Z] + [a] == [Z, a];
    var s := Scene(Head(1, [Z], 0, 0, 1, 0), Peer(1, [Z], 0, 0), {}, IDLE, IDLE, []);
    Submit0(d, s, s.(x := Head(1, [Z, a], 0, 0, 1, 0), cs := [a.command]), a.command);
  }

  /** It restarts and leads term 2, with `a` in its log and an empty follower. */
  lemma SecondTerm(d: Delivery, a: Entry)
    requires a.term == 1
    ensures Reaches(d, Scene(Head(2, [Z, a], 0, 0, 2, 0), Peer(2, [Z], 0, 0), {}, IDLE, IDLE, [a.command]))
  {
    hide Reaches;
    TwoServers();
    FirstTerm(d, a);
    var s0 := Scene(Head(1, [Z, a], 0, 0, 1, 0), Peer(1, [Z], 0, 0), {}, IDLE, IDLE, [a.command]);
    var s1 := s0.(x := Restart(s0.x));
    Crash0(d, s0, s1);
    var args := VoteArgs(2, 0, 1, 1);
    var q, m := VoteReq(0, 1, args), VoteRep(1, 0, 2, VoteReply(2, true));
    var s2 := s1.(x := StartElection(s1.x, 0), net := {q});
    Elect(d, s1, s2, args);
    var s3 := s2.(y := Peer(2, [Z], 0, 0), net := {m});
    Ask(d, s2, s3, q);
    Answer(d, s3, s3.(x := Head(2, [Z, a], 0, 0, 2, 0), net := {}), m);
  }

  /** The follower's answer that its log is too short. TWO heartbeats draw it; one copy is
      delivered at once, the other much later. */
  const TOO_SHORT := AppendRep(1, 0, 2, 1, 0, AppendReply(2, false, -1, 1))

  lemma Rejected(d: Delivery, a: Entry)
    requires a.term == 1
    ensures Reaches(d, Scene(Head(2, [Z, a], 0, 0, 1, 0), Peer(2, [Z], 0, 0), {TOO_SHORT}, IDLE, IDLE, [a.command]))
  {
    hide Reaches;
    var s0 := Scene(Head(2, [Z, a], 0, 0, 2, 0), Peer(2, [Z], 0, 0), {}, IDLE, IDLE, [a.command]);
    SecondTerm(d, a);
    var args := AppendArgs(2, 0, 1, 1, [], 0);
    var q := AppendReq(0, 1, args);
    Send0(d, s0, s0.(net := {q}), SendAppend(args));
    Ask(d, s0.(net := {q}), s0.(net := {TOO_SHORT}), q);
    Send0(d, s0.(net := {TOO_SHORT}), s0.(net := {TOO_SHORT, q}), SendAppend(args));
    Ask(d, s0.(net := {TOO_SHORT, q}), s0.(net := {TOO_SHORT}), q);
    assert [2, 2][1 := 1] == [2, 1];
    Answer(d, s0.(net := {TOO_SHORT}), s0.(x := Head(2, [Z, a], 0, 0, 1, 0), net := {TOO_SHORT}), TOO_SHORT);
  }

  /** The leader appends `b`, sends both entries, and commits them. */
  lemma Replicated(d: Delivery, a: Entry, b: Entry)
    requires a.term == 1 && b.term == 2
    ensures Reaches(d,
      Scene(Head(2, [Z, a, b], 2, 0, 3, 2), Peer(2, [Z, a, b], 0, 0), {TOO_SHORT}, IDLE, IDLE, [a.command, b.command]))
  {
    hide Reaches;
    var x, y := Head(2, [Z, a, b], 0, 0, 1, 0), Peer(2, [Z, a, b], 0, 0);
    var s0 := Scene(Head(2, [Z, a], 0, 0, 1, 0), Peer(2, [Z], 0, 0), {TOO_SHORT}, IDLE, IDLE, [a.command]);
    Rejected(d, a);
    assert [Z, a] + [b] == [Z, a, b];
    var s := s0.(x := x, cs := [a.command, b.command]);
    Submit0(d, s0, s, b.command);
    var args := AppendArgs(2, 0, 0, 0, [a, b], 0);
    var q, m := AppendReq(0, 1, args), AppendRep(1, 0, 2, 0, 2, AppendReply(2, true, 0, 0));
    assert x.log[1..] == [a, b];
    var s1 := s.(net := {TOO_SHORT, q});
    Send0(d, s, s1, SendAppend(args));
    Accepts(a, b, args);
    var s2 := s1.(y := y, net := {TOO_SHORT, m});
    Ask(d, s1, s2, q);
    Commits(x, a, b);
    Answer(d, s2, s2.(x := Head(2, [Z, a, b], 2, 0, 3, 2), net := {TOO_SHORT}), m);
  }

  lemma Accepts(a: Entry, b: Entry, args: AppendArgs)
    requires args == AppendArgs(2, 0, 0, 0, [a, b], 0)
    ensures AppendEntries(Peer(2, [Z], 0, 0), args) == (Peer(2, [Z, a, b], 0, 0), AppendReply(2, true, 0, 0))
  {
    assert [a, b][1..] == [b] && [b][1..] == [];
    assert [Z] + [a] == [Z, a] && [Z, a][..2] + [b] == [Z, a, b];
    assert Splice([Z, a], 2, [b]) == Splice([Z, a, b], 3, []);
    assert Splice([Z], 1, [a, b]) == Splice([Z][..1] + [a], 2, [b]);
    assert [Z][..1] + [a] == [Z, a];
    assert |[Z, a, b]| != |[Z]|;
    assert Accepted(Peer(2, [Z], 0, 0), args) == Peer(2, [Z, a, b], 0, 0);
  }

  lemma Commits(x: Node, a: Entry, b: Entry)
    requires x == Head(2, [Z, a, b], 0, 0, 1, 0) && b.term == 2
    ensures OnAppendReply(x, 0, 1, 2, 0, 2, AppendReply(2, true, 0, 0)) == Head(2, [Z, a, b], 2, 0, 3, 2)
  {
    assert Replicas([0, 2], 0, 2) == {0, 1};
    assert [0, 0][1 := 2] == [0, 2] && [2, 1][1 := 3] == [2, 3];
  }

  /** Both services are handed both entries. */
  lemma Handed(log: seq<Entry>, a: Entry, b: Entry, n: Node)
    requires |log| >= 3 && log[..3] == [Z, a, b]
    requires n.log == log && n.lastIncludedIndex == n.lastApplied == 0 && n.commitIndex == 2
    ensures Appliable(n)
    ensures Messages(1, Batch(n)) == [CommandMsg(1, a.command), CommandMsg(2, b.command)]
  {
    assert log[1..3] == log[..3][1..3] == [a, b];
    assert Batch(n) == [a, b];
  }

  // ---------------------------------------------------------------- a snapshot overtakes

  const EARLY := Entry(Do(1, 1, Put("x", "c", 1)), 1)
  const LATE := Entry(Do(2, 2, Put("x", "a", 0)), 2)
  const TWO_PUTS := [EARLY.command, LATE.command]
  const RIGHT: Store := map["x" := Item("a", 1)]
  const WRONG: Store := map["x" := Item("c", 2)]

  /** The leader applies both entries, of which the first has no effect, and saves a snapshot. */
  lemma LeaderSaves() returns (x: Node)
    ensures x == RaftNode.Snapshot(Head(2, [Z, EARLY, LATE], 2, 2, 3, 2), 2, RIGHT)
    ensures Reaches(NoneOlder,
      Scene(x, Peer(2, [Z, EARLY, LATE], 0, 0), {TOO_SHORT}, Having(RIGHT, 2, []), IDLE, TWO_PUTS))
  {
    hide Reaches;
    Replicated(NoneOlder, EARLY, LATE);
    var c1, c2 := CommandMsg(1, EARLY.command), CommandMsg(2, LATE.command);
    var s0 :=
      Scene(Head(2, [Z, EARLY, LATE], 2, 0, 3, 2), Peer(2, [Z, EARLY, LATE], 0, 0), {TOO_SHORT}, IDLE, IDLE, TWO_PUTS);
    Handed([Z, EARLY, LATE], EARLY, LATE, s0.x);
    var s1 := s0.(x := Head(2, [Z, EARLY, LATE], 2, 2, 3, 2), u := Having(map[], 0, [c1, c2]));
    Apply0(NoneOlder, s0, s1);
    assert [c1, c2][..0] + [c1, c2][1..] == [c2];
    var s2 := s1.(u := Having(map[], 1, [c2]));
    Read0(NoneOlder, s1, s2);
    assert [c2][..0] + [c2][1..] == [];
    var s3 := s2.(u := Having(RIGHT, 2, []));
    Read0(NoneOlder, s2, s3);
    x := RaftNode.Snapshot(s3.x, 2, RIGHT);
    Compact0(NoneOlder, s3, s3.(x := x));
  }

  /** The follower learns of the commit; its applier has sent both commands when the late
      rejection makes the leader send its snapshot, which the follower installs. */
  lemma InFlight() returns (x: Node, y: Node)
    ensures x.lastApplied == y.lastApplied == 2
    ensures Reaches(NoneOlder, Scene(x, y, {}, Having(RIGHT, 2, []),
      Having(map[], 0, [CommandMsg(1, EARLY.command), CommandMsg(2, LATE.command), SnapshotMsg(2, RIGHT)]), TWO_PUTS))
  {
    hide Reaches;
    var l := LeaderSaves();
    var c1, c2 := CommandMsg(1, EARLY.command), CommandMsg(2, LATE.command);
    var s0 := Scene(l, Peer(2, [Z, EARLY, LATE], 0, 0), {TOO_SHORT}, Having(RIGHT, 2, []), IDLE, TWO_PUTS);
    var args := AppendArgs(2, 0, 2, 2, [], 2);
    var q := AppendReq(0, 1, args);
    assert l.log == [Entry(Nothing, 2)];
    Send0(NoneOlder, s0, s0.(net := {TOO_SHORT, q}), SendAppend(args));
    var s1 := s0.(y := Peer(2, [Z, EARLY, LATE], 2, 0));
    assert AppendEntries(s0.y, args) == (s1.y, AppendReply(2, true, 0, 0));
    Ask(NoneOlder, s0.(net := {TOO_SHORT, q}), s1, q);
    Handed([Z, EARLY, LATE], EARLY, LATE, s1.y);
    var s2 := s1.(y := Peer(2, [Z, EARLY, LATE], 2, 2), v := Having(map[], 0, [c1, c2]));
    Apply1(NoneOlder, s1, s2);
    x := Receive(l, TOO_SHORT).0;
    assert x.nextIndex == [2, 1];
    Answer(NoneOlder, s2, s2.(x := x, net := {}), TOO_SHORT);
    var install := SnapshotArgs(2, 0, 2, 2, RIGHT);
    var m := InstallReq(0, 1, install);
    Send0(NoneOlder, s2.(x := x, net := {}), s2.(x := x, net := {m}), SendSnapshot(install));
    y := Receive(s2.y, m).0;
    var s3 := s2.(x := x, y := y, net := {}, v := Having(map[], 0, [c1, c2, SnapshotMsg(2, RIGHT)]));
    Ask(NoneOlder, s2.(x := x, net := {m}), s3, m);
  }

  /** The snapshot is read first, and the commands are executed once more on top of it. */
  lemma Overtaken() returns (x: Node, y: Node)
    ensures x.lastApplied == y.lastApplied == 2
    ensures Reaches(NoneOlder, Scene(x, y, {}, Having(RIGHT, 2, []), Having(WRONG, 2, []), TWO_PUTS))
  {
    hide Reaches;
    x, y := InFlight();
    var c1, c2, m := CommandMsg(1, EARLY.command), CommandMsg(2, LATE.command), SnapshotMsg(2, RIGHT);
    var s0 := Scene(x, y, {}, Having(RIGHT, 2, []), Having(map[], 0, [c1, c2, m]), TWO_PUTS);
    assert [c1, c2, m][..2] + [c1, c2, m][3..] == [c1, c2];
    var s1 := s0.(v := Having(RIGHT, 2, [c1, c2]));
    Read1(NoneOlder, s0, s1, 2);
    assert [c1, c2][..0] + [c1, c2][1..] == [c2];
    var s2 := s1.(v := Having(WRONG, 1, [c2]));
    Read1(NoneOlder, s1, s2, 0);
    assert [c2][..0] + [c2][1..] == [];
    Read1(NoneOlder, s2, s2.(v := Having(WRONG, 2, [])), 0);
  }

  // ---------------------------------------------------------------- a service is taken back

  const A := Entry(Do(1, 1, Put("x", "a", 0)), 1)
  const B := Entry(Do(2, 2, Put("y", "b", 0)), 2)
  const C := Entry(Do(3, 2, Put("z", "c", 0)), 2)
  const THREE_PUTS := [A.command, B.command, C.command]
  const S1: Store := map["x" := Item("a", 1)]
  const S2: Store := S1["y" := Item("b", 1)]
  const S3: Store := S2["z" := Item("c", 1)]
  const GAP: Store := S1["z" := Item("c", 1)]
  const ONE := CommandMsg(1, A.command)
  const TWO := CommandMsg(2, B.command)
  const THREE := CommandMsg(3, C.command)

  /** The leader, which has compacted the first of three entries and committed the second. */
  function Saver(next: nat): Node {
    var log := [Entry(Nothing, 1), B, C];
    Node(2, 0, log, 1, 1, 2, 2, [2, next], [0, 2], Leader, 2, {}, Image(2, 0, log, 1, 1), S1)
  }

  /** Its service reads one entry, saves its state, and reads the other. */
  lemma LeaderReads()
    ensures Reaches(FirstInFirstOut,
      Scene(Saver(3), Peer(2, [Z, A, B], 0, 0), {TOO_SHORT}, Having(S2, 2, []), IDLE, THREE_PUTS))
  {
    hide Reaches;
    Replicated(FirstInFirstOut, A, B);
    var s0 :=
      Scene(Head(2, [Z, A, B], 2, 0, 3, 2), Peer(2, [Z, A, B], 0, 0), {TOO_SHORT}, IDLE, IDLE, [A.command, B.command]);
    assert [Z, A, B] + [C] == [Z, A, B, C];
    var s1 := s0.(x := Head(2, [Z, A, B, C], 2, 0, 3, 2), cs := THREE_PUTS);
    Submit0(FirstInFirstOut, s0, s1, C.command);
    assert [Z, A, B, C][..3] == [Z, A, B];
    Handed([Z, A, B, C], A, B, s1.x);
    var s2 := s1.(x := Head(2, [Z, A, B, C], 2, 2, 3, 2), u := Having(map[], 0, [ONE, TWO]));
    Apply0(FirstInFirstOut, s1, s2);
    assert [ONE, TWO][..0] + [ONE, TWO][1..] == [TWO];
    var s3 := s2.(u := Having(S1, 1, [TWO]));
    Read0(FirstInFirstOut, s2, s3);
    assert [Z, A, B, C][2..] == [B, C] && [Entry(Nothing, 1)] + [B, C] == [Entry(Nothing, 1), B, C];
    assert RaftNode.Snapshot(s3.x, 1, S1) == Saver(3);
    var s4 := s3.(x := Saver(3));
    Compact0(FirstInFirstOut, s3, s4);
    assert [TWO][..0] + [TWO][1..] == [];
    Read0(FirstInFirstOut, s4, s4.(u := Having(S2, 2, [])));
  }

  /** The follower's answer to the third entry, delivered later. */
  const ADDED := AppendRep(1, 0, 2, 2, 1, AppendReply(2, true, 0, 0))

  /** The follower takes the third entry, and its service reads the first two. */
  lemma FollowerReads()
    ensures Reaches(FirstInFirstOut,
      Scene(Saver(3), Peer(2, [Z, A, B, C], 2, 2), {TOO_SHORT, ADDED}, Having(S2, 2, []), Having(S2, 2, []), THREE_PUTS))
  {
    hide Reaches;
    LeaderReads();
    var s0 := Scene(Saver(3), Peer(2, [Z, A, B], 0, 0), {TOO_SHORT}, Having(S2, 2, []), IDLE, THREE_PUTS);
    var args := AppendArgs(2, 0, 2, 2, [C], 2);
    var q := AppendReq(0, 1, args);
    assert Saver(3).log[2..] == [C];
    Send0(FirstInFirstOut, s0, s0.(net := {TOO_SHORT, q}), SendAppend(args));
    Takes(args);
    var s1 := s0.(y := Peer(2, [Z, A, B, C], 2, 0), net := {TOO_SHORT, ADDED});
    Ask(FirstInFirstOut, s0.(net := {TOO_SHORT, q}), s1, q);
    assert [Z, A, B, C][..3] == [Z, A, B];
    Handed([Z, A, B, C], A, B, s1.y);
    var s2 := s1.(y := Peer(2, [Z, A, B, C], 2, 2), v := Having(map[], 0, [ONE, TWO]));
    Apply1(FirstInFirstOut, s1, s2);
    assert [ONE, TWO][..0] + [ONE, TWO][1..] == [TWO];
    var s3 := s2.(v := Having(S1, 1, [TWO]));
    Read1(FirstInFirstOut, s2, s3, 0);
    assert [TWO][..0] + [TWO][1..] == [];
    Read1(FirstInFirstOut, s3, s3.(v := Having(S2, 2, [])), 0);
  }

  lemma Takes(args: AppendArgs)
    requires args == AppendArgs(2, 0, 2, 2, [C], 2)
    ensures AppendEntries(Peer(2, [Z, A, B], 0, 0), args) == (Peer(2, [Z, A, B, C], 2, 0), AppendReply(2, true, 0, 0))
  {
    assert [C][1..] == [] && [Z, A, B][..3] + [C] == [Z, A, B, C];
    assert Splice([Z, A, B], 3, [C]) == Splice([Z, A, B, C], 4, []);
    assert |[Z, A, B, C]| != |[Z, A, B]|;
    assert Accepted(Peer(2, [Z, A, B], 0, 0), args) == Peer(2, [Z, A, B, C], 0, 0);
  }

  /** The follower after the leader's snapshot. */
  function Based(commit: nat, applied: nat): Node {
    var log := [Entry(Nothing, 1), B, C];
    Node(2, 0, log, 1, 1, commit, applied, [0, 0], [0, 0], Follower, 0, {}, Image(2, 0, log, 1, 1), S1)
  }

  /** The late rejection makes the leader send its snapshot, and the follower takes it although
      it has applied more. */
  lemma TakenBack()
    ensures Reaches(FirstInFirstOut,
      Scene(Saver(1), Based(2, 2), {ADDED}, Having(S2, 2, []), Having(S1, 1, []), THREE_PUTS))
  {
    hide Reaches;
    FollowerReads();
    var s0 :=
      Scene(Saver(3), Peer(2, [Z, A, B, C], 2, 2), {TOO_SHORT, ADDED}, Having(S2, 2, []), Having(S2, 2, []), THREE_PUTS);
    assert [2, 3][1 := 1] == [2, 1];
    var s1 := s0.(x := Saver(1), net := {ADDED});
    Answer(FirstInFirstOut, s0, s1, TOO_SHORT);
    var args := SnapshotArgs(2, 0, 1, 1, S1);
    var q := InstallReq(0, 1, args);
    Send0(FirstInFirstOut, s1, s1.(net := {ADDED, q}), SendSnapshot(args));
    assert [Z, A, B, C][2..] == [B, C] && [Entry(Nothing, 1)] + [B, C] == [Entry(Nothing, 1), B, C];
    assert DropPrefix([Z, A, B, C], 1, 1) == Based(2, 2).log;
    var back := SnapshotMsg(1, S1);
    var s2 := s1.(y := Based(2, 2), v := Having(S2, 2, [back]));
    Ask(FirstInFirstOut, s1.(net := {ADDED, q}), s2, q);
    assert [back][..0] + [back][1..] == [];
    Read1(FirstInFirstOut, s2, s2.(v := Having(S1, 1, [])), 0);
  }

  // ---------------------------------------------------------------- and saves what it has

  function Leading(applied: nat): Node {
    Saver(4).(commitIndex := 3, lastApplied := applied, matchIndex := [0, 3])
  }

  /** The third entry is committed. */
  lemma ThirdCommitted()
    ensures Reaches(FirstInFirstOut, Scene(Leading(2), Based(3, 2), {}, Having(S2, 2, []), Having(S1, 1, []), THREE_PUTS))
  {
    hide Reaches;
    TakenBack();
    var s0 := Scene(Saver(1), Based(2, 2), {ADDED}, Having(S2, 2, []), Having(S1, 1, []), THREE_PUTS);
    CommitsThird();
    var s1 := s0.(x := Leading(2), net := {});
    Answer(FirstInFirstOut, s0, s1, ADDED);
    var args := AppendArgs(2, 0, 3, 2, [], 3);
    var q := AppendReq(0, 1, args);
    assert Leading(2).log[3..] == [];
    Send0(FirstInFirstOut, s1, s1.(net := {q}), SendAppend(args));
    LearnsThird(args);
    Ask(FirstInFirstOut, s1.(net := {q}), s1.(y := Based(3, 2)), q);
  }

  lemma CommitsThird()
    ensures OnAppendReply(Saver(1), 0, 1, 2, 2, 1, AppendReply(2, true, 0, 0)) == Leading(2)
  {
    assert Replicas([0, 3], 0, 3) == {0, 1} && [0, 2][1 := 3] == [0, 3] && [2, 1][1 := 4] == [2, 4];
  }

  lemma LearnsThird(args: AppendArgs)
    requires args == AppendArgs(2, 0, 3, 2, [], 3)
    ensures AppendEntries(Based(2, 2), args) == (Based(3, 2), AppendReply(2, true, 0, 0))
  {
  }

  /** The service that was taken back executes it without the second, and saves the result;
      the other executes all three. */
  lemma GapSaved() returns (y: Node)
    ensures y.lastIncludedIndex == y.lastApplied == 3 && y.snapshot == GAP
    ensures Reaches(FirstInFirstOut, Scene(Leading(3), y, {}, Having(S3, 3, []), Having(GAP, 3, []), THREE_PUTS))
  {
    hide Reaches;
    ThirdCommitted();
    var s0 := Scene(Leading(2), Based(3, 2), {}, Having(S2, 2, []), Having(S1, 1, []), THREE_PUTS);
    assert Leading(2).log[2..3] == [C] && Based(3, 2).log[2..3] == [C];
    assert Messages(3, [C]) == [THREE] && [THREE][..0] + [THREE][1..] == [];
    var s1 := s0.(x := Leading(3), u := Having(S2, 2, [THREE]));
    Apply0(FirstInFirstOut, s0, s1);
    var s2 := s1.(u := Having(S3, 3, []));
    Read0(FirstInFirstOut, s1, s2);
    var s3 := s2.(y := Based(3, 3), v := Having(S1, 1, [THREE]));
    Apply1(FirstInFirstOut, s2, s3);
    var s4 := s3.(v := Having(GAP, 3, []));
    Read1(FirstInFirstOut, s3, s4, 0);
    y := RaftNode.Snapshot(Based(3, 3), 3, GAP);
    Compact1(FirstInFirstOut, s4, s4.(y := y));
  }
}
