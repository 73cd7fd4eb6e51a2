/** A run of two servers that commits any list of entries at once, step by step.

    Server 0 is elected in term 1 and is passed all entries before it sends any. Its service
    waits for the result of the first entry, which is that of operation 2. Then all entries go
    to the follower in one request, are committed by its answer, and are read by the service of
    server 0 one by one; the waiting thread returns after the first.

    The list that matters is `LateLog`: the second attempt of a Put to a missing key, as many
    Puts of others as it takes to bring the key to the version the first Put asked for, and
    then the first attempt. `OnceEach` and the lemmas before it say that the two attempts occur
    once each in the run, in this order. */
module LateRun {
  import opened KvStore
  import opened RaftLog
  import opened RaftNode
  import opened Cluster
  import opened Rsm
  import opened ReplicatedStore
  import opened DivergentRuns
  import opened KvRaft
  import opened KvClerks

  lemma Register0(s: Scene, t: Scene, index: nat, startTerm: nat, id: int)
    requires Reaches(Regular, s) && t == s.(u := Registered(s.u, index, startTerm, id))
    ensures Reaches(Regular, t)
  {
    hide Reaches;
    Extend(Regular, s, Register(0, index, startTerm, id), t);
  }

  lemma Poll0(s: Scene, t: Scene)
    requires Reaches(Regular, s) && |s.u.threads| > 0 && s.u.threads[0].outcome == Waiting && s.u.threads[0].channel.Full?
    requires t == s.(u := OnPoll(s.u, 0, true))
    ensures Reaches(Regular, t)
  {
    hide Reaches;
    Extend(Regular, s, Poll(0, 0), t);
  }

  // ---------------------------------------------------------------- any entries of term 1

  ghost predicate OfTerm1(es: seq<Entry>) {
    forall i | 0 <= i < |es| :: es[i].term == 1 && es[i].command.Do?
  }

  function CommandsOf(es: seq<Entry>): seq<Command> {
    seq(|es|, i requires 0 <= i < |es| => es[i].command)
  }

  /** The leader of term 1 is passed all entries. */
  lemma {:induction false} AllSubmitted(es: seq<Entry>)
    requires OfTerm1(es)
    ensures Reaches(Regular, Scene(Head(1, [Z] + es, 0, 0, 1, 0), Peer(1, [Z], 0, 0), {}, IDLE, IDLE, CommandsOf(es)))
    decreases |es|
  {
    hide Reaches;
    if es == [] {
      FirstLeader(Regular);
      assert [Z] + es == [Z] && CommandsOf(es) == [];
    } else {
      var n := |es| - 1;
      AllSubmitted(es[..n]);
      assert ([Z] + es[..n]) + [es[n]] == [Z] + es;
      assert CommandsOf(es[..n]) + [es[n].command] == CommandsOf(es);
      var s := Scene(Head(1, [Z] + es[..n], 0, 0, 1, 0), Peer(1, [Z], 0, 0), {}, IDLE, IDLE, CommandsOf(es[..n]));
      Submit0(Regular, s, s.(x := Head(1, [Z] + es, 0, 0, 1, 0), cs := CommandsOf(es)), es[n].command);
    }
  }

  lemma {:induction false} SpliceEnd(log: seq<Entry>, es: seq<Entry>)
    ensures Splice(log, |log|, es) == log + es
    decreases |es|
  {
    if es == [] {
      assert log + es == log;
    } else {
      assert log[..|log|] + [es[0]] == log + [es[0]];
      SpliceEnd(log + [es[0]], es[1..]);
      assert log + [es[0]] + es[1..] == log + es;
    }
  }

  /** The service waits for index 1. */
  const WAITING := Registered(IDLE, 1, 1, 2)

  /** All entries are sent to the follower at once, and committed. */
  lemma AllCommitted(es: seq<Entry>)
    requires OfTerm1(es) && |es| > 0
    ensures Reaches(Regular,
      Scene(Head(1, [Z] + es, |es|, 0, |es| + 1, |es|), Peer(1, [Z] + es, 0, 0), {}, WAITING, IDLE, CommandsOf(es)))
  {
    hide Reaches;
    var x := Head(1, [Z] + es, 0, 0, 1, 0);
    AllSubmitted(es);
    var s0 := Scene(x, Peer(1, [Z], 0, 0), {}, IDLE, IDLE, CommandsOf(es));
    var s1 := s0.(u := WAITING);
    Register0(s0, s1, 1, 1, 2);
    var args := AppendArgs(1, 0, 0, 0, es, 0);
    var q, m := AppendReq(0, 1, args), AppendRep(1, 0, 1, 0, |es|, AppendReply(1, true, 0, 0));
    assert x.log[1..] == es;
    Send0(Regular, s1, s1.(net := {q}), SendAppend(args));
    Accepting(es);
    var s2 := s1.(y := Peer(1, [Z] + es, 0, 0), net := {m});
    Ask(Regular, s1.(net := {q}), s2, q);
    Committing(es);
    DivergentRuns.Answer(Regular, s2, s2.(x := Head(1, [Z] + es, |es|, 0, |es| + 1, |es|), net := {}), m);
  }

  lemma Accepting(es: seq<Entry>)
    requires |es| > 0
    ensures AppendEntries(Peer(1, [Z], 0, 0), AppendArgs(1, 0, 0, 0, es, 0))
         == (Peer(1, [Z] + es, 0, 0), AppendReply(1, true, 0, 0))
  {
    SpliceEnd([Z], es);
    assert |[Z] + es| != |[Z]|;
  }

  lemma Committing(es: seq<Entry>)
    requires OfTerm1(es) && |es| > 0
    ensures OnAppendReply(Head(1, [Z] + es, 0, 0, 1, 0), 0, 1, 1, 0, |es|, AppendReply(1, true, 0, 0))
         == Head(1, [Z] + es, |es|, 0, |es| + 1, |es|)
  {
    assert Replicas([0, |es|], 0, |es|) == {0, 1};
    assert [0, 0][1 := |es|] == [0, |es|] && [1, 1][1 := |es| + 1] == [1, |es| + 1];
  }

  // ---------------------------------------------------------------- the service

  /** The thread that waited, after it was told the result of entry 1. */
  function Told(r: Reply): Thread {
    Thread(1, 1, 2, Full(Notification(2, 1, r)), Ok(r))
  }

  function Served(es: seq<Entry>, k: nat, r: Reply): Service
    requires k <= |es|
  {
    Service(Replay(map[], es[..k]), k, Messages(k + 1, es[k..]), map[], [Told(r)])
  }

  function Ended(es: seq<Entry>, k: nat, r: Reply): Scene
    requires k <= |es|
  {
    Scene(Head(1, [Z] + es, |es|, |es|, |es| + 1, |es|), Peer(1, [Z] + es, 0, 0), {}, Served(es, k, r), IDLE, CommandsOf(es))
  }

  /** The first entry is read, and the thread that waits for it returns. */
  lemma FirstRead(es: seq<Entry>, request: Request)
    requires OfTerm1(es) && |es| > 0 && es[0].command == Do(2, 1, request)
    ensures Reaches(Regular, Ended(es, 1, ReplyAt(es, 1)))
  {
    hide Reaches;
    AllCommitted(es);
    var x := Head(1, [Z] + es, |es|, 0, |es| + 1, |es|);
    assert ([Z] + es)[1..|es| + 1] == es;
    assert Batch(x) == es;
    var s0 := Scene(x, Peer(1, [Z] + es, 0, 0), {}, WAITING, IDLE, CommandsOf(es));
    var all := Messages(1, es);
    assert [] + all == all;
    var s1 := s0.(x := x.(lastApplied := |es|), u := WAITING.(queue := all));
    Apply0(Regular, s0, s1);
    assert all[..0] + all[1..] == Messages(2, es[1..]);
    ReplayNext(es, 0);
    assert es[..0] == [];
    var r := ReplyAt(es, 1);
    var u := Service(Replay(map[], es[..1]), 1, Messages(2, es[1..]), map[], [Told(r).(outcome := Waiting)]);
    assert ReadAt(s1.u, 0) == u;
    Read0(Regular, s1, s1.(u := u));
    Poll0(s1.(u := u), Ended(es, 1, r));
  }

  lemma {:induction false} RestRead(es: seq<Entry>, request: Request, k: nat)
    requires OfTerm1(es) && 0 < k <= |es| && es[0].command == Do(2, 1, request)
    ensures Reaches(Regular, Ended(es, k, ReplyAt(es, 1)))
    decreases k
  {
    hide Reaches, ReplyAt, Execute;
    if k == 1 {
      FirstRead(es, request);
    } else {
      RestRead(es, request, k - 1);
      var r, rest := ReplyAt(es, 1), Messages(k, es[k - 1..]);
      assert rest[..0] + rest[1..] == Messages(k + 1, es[k..]);
      ReplayNext(es, k - 1);
      Read0(Regular, Ended(es, k - 1, r), Ended(es, k, r));
    }
  }

  // ---------------------------------------------------------------- the result

  lemma {:induction false} CommandAt(hs: seq<Happening>, i: nat)
    requires i < |hs| && hs[i].Raft? && hs[i].event.Submit?
    ensures hs[i].event.command in Commands(hs)
    decreases |hs|
  {
    if i < |hs| - 1 {
      CommandAt(hs[..|hs| - 1], i);
    }
  }

  lemma {:induction false} CommandTwice(hs: seq<Happening>, i: nat, j: nat)
    requires i < j < |hs| && hs[i].Raft? && hs[i].event.Submit? && hs[j].Raft? && hs[j].event.Submit?
    ensures multiset(Commands(hs))[hs[j].event.command] >= if hs[i].event.command == hs[j].event.command then 2 else 1
    decreases |hs|
  {
    if j < |hs| - 1 {
      CommandTwice(hs[..|hs| - 1], i, j);
    } else {
      CommandAt(hs[..|hs| - 1], i);
    }
  }

  /** Where a command was passed to Start. */
  lemma {:induction false} CommandFrom(hs: seq<Happening>, a: nat) returns (i: nat)
    requires a < |Commands(hs)|
    ensures i < |hs| && hs[i].Raft? && hs[i].event.Submit? && hs[i].event.command == Commands(hs)[a]
    ensures |Commands(hs[..i])| == a
    decreases |hs|
  {
    var n := |hs| - 1;
    if a < |Commands(hs[..n])| {
      i := CommandFrom(hs[..n], a);
      assert hs[..n][..i] == hs[..i];
    } else {
      i := n;
    }
  }

  lemma {:induction false} CommandsGrow(hs: seq<Happening>, i: nat, j: nat)
    requires i <= j <= |hs|
    ensures |Commands(hs[..i])| <= |Commands(hs[..j])|
    decreases j
  {
    if i < j {
      CommandsGrow(hs, i, j - 1);
      assert hs[..j][..j - 1] == hs[..j - 1];
    }
  }

  /** The two attempts occur once each, and nothing else uses their ids. */
  lemma OnceEach(key: string, value: string, version: nat)
    requires version > 0
    ensures var es := LateLog(key, value, version); OfTerm1(es)
    ensures var cs := CommandsOf(LateLog(key, value, version));
      forall c | c in cs && c.Do? && c.id in {1, 2} ::
        c == Do(c.id, 1, Put(key, value, version)) && multiset(cs)[c] == 1
  {
    LateAttempt(key, value, version);
    ClimbLength(key, version);
    var es, climb := LateLog(key, value, version), Climb(key, version);
    var cs := CommandsOf(es);
    assert cs == [es[0].command] + CommandsOf(climb) + [es[version + 1].command];
    forall k | 0 <= k < |climb| ensures es[k + 1] == climb[k] && climb[k].command.id > 2 && climb[k].command.Do? {
      assert climb[k] in climb;
    }
  }

  lemma OwnAttempts(run: seq<World>, hs: seq<Happening>, key: string, value: string, version: nat, op: Op)
    requires version > 0 && Commands(hs) == CommandsOf(LateLog(key, value, version))
    requires op.request == Put(key, value, version) && op.ids == {1, 2} && op.invoked == 0
    requires Replied(run, op) && !op.answer.first
    ensures Issues(run, hs, op)
  {
    hide LateLog;
    OnceEach(key, value, version);
    forall i | 0 <= i < |hs| && Tries(hs[i], op.ids) ensures hs[i].event.command.request == op.request {
      CommandAt(hs, i);
    }
    forall i, j | 0 <= i < j < |hs| && Tries(hs[i], op.ids) && Tries(hs[j], op.ids)
      ensures hs[i].event.command.id != hs[j].event.command.id
    {
      CommandAt(hs, i);
      CommandAt(hs, j);
      CommandTwice(hs, i, j);
    }
  }
}
