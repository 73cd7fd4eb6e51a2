/** The layer between Raft and the replicated store on one server: a reader executes what
    arrives on the apply channel, Submit threads wait for the result of their operation. */
module Rsm {
  import opened KvStore
  import opened RaftLog

  /** What Raft sends up the apply channel. */
  datatype ApplyMsg = CommandMsg(index: nat, command: Command) | SnapshotMsg(index: nat, data: Store)

  datatype Notification = Notification(id: int, term: nat, result: Reply)

  datatype Channel = Empty | Full(note: Notification) | Closed

  datatype Outcome = Waiting | WrongLeader | Ok(result: Reply)

  /** A Submit that registered at `index`: Start gave it (index, startTerm) for its operation `id`. */
  datatype Thread = Thread(index: nat, startTerm: nat, id: int, channel: Channel, outcome: Outcome)

  datatype Service = Service(
    store: Store,
    position: nat,                // index of the message read last
    queue: seq<ApplyMsg>,         // sent by Raft and not yet read
    pending: map<nat, nat>,       // index -> thread whose channel is registered there
    threads: seq<Thread>)

  // ---------------------------------------------------------------- steps

  /** Put a notification into the channel registered at an index, and unregister it. */
  function Notify(s: Service, index: nat, note: Notification): Service {
    if index !in s.pending then s
    else
      var j := s.pending[index];
      var s' := s.(pending := s.pending - {index});
      if j < |s.threads| then s'.(threads := s.threads[j := s.threads[j].(channel := Full(note))]) else s'
  }

  /** One message: execute the command and wake the thread that waits for its index, or
      restore the snapshot. */
  function OnMessage(s: Service, m: ApplyMsg): Service {
    match m
    case CommandMsg(index, command) =>
      var s' := s.(position := index);
      if !command.Do? then s'
      else
        var (store, reply) := Execute(s.store, command.request);
        Notify(s'.(store := store), index, Notification(command.id, command.term, reply))
    case SnapshotMsg(index, data) => s.(store := data, position := index)
  }

  /** The reader receives the message at place `k` of what was sent. */
  function ReadAt(s: Service, k: nat): Service
    requires k < |s.queue|
  {
    OnMessage(s.(queue := s.queue[..k] + s.queue[k + 1..]), s.queue[k])
  }

  function Registered(s: Service, index: nat, startTerm: nat, id: int): Service {
    s.(threads := s.threads + [Thread(index, startTerm, id, Empty, Waiting)], pending := s.pending[index := |s.threads|])
  }

  /** Leaving Submit unregisters whatever is registered at the index, even another thread's channel. */
  function Leave(s: Service, j: nat, outcome: Outcome): Service
    requires j < |s.threads|
  {
    s.(threads := s.threads[j := s.threads[j].(outcome := outcome)], pending := s.pending - {s.threads[j].index})
  }

  function OnPoll(s: Service, j: nat, lostLeadership: bool): Service
    requires j < |s.threads|
  {
    var t := s.threads[j];
    match t.channel
    case Closed => Leave(s, j, WrongLeader)
    case Full(n) =>
      if n.term != t.startTerm || n.id != t.id then Leave(s, j, WrongLeader) else Leave(s, j, Ok(n.result))
    case Empty => if lostLeadership then Leave(s, j, WrongLeader) else s
  }

  function Shut(threads: seq<Thread>, closed: set<nat>): seq<Thread> {
    seq(|threads|, j requires 0 <= j < |threads| =>
      if j in closed then threads[j].(channel := Closed) else threads[j])
  }

  function CloseAll(s: Service): Service {
    s.(pending := map[], threads := Shut(s.threads, s.pending.Values))
  }

  // ---------------------------------------------------------------- what a waiting thread gets

  /** A thread that is registered for the index at which its own operation is executed gets the
      result of that execution, whether or not its server still leads. */
  lemma WokenByOwn(s: Service, m: ApplyMsg, j: nat, lost: bool)
    requires m.CommandMsg? && m.command.Do? && m.index in s.pending && s.pending[m.index] == j < |s.threads|
    requires s.threads[j].id == m.command.id && s.threads[j].startTerm == m.command.term
    ensures |OnMessage(s, m).threads| == |s.threads| && m.index !in OnMessage(s, m).pending
    ensures OnPoll(OnMessage(s, m), j, lost).threads[j].outcome == Ok(Execute(s.store, m.command.request).1)
  {
    hide Execute;
  }

  /** So a Submit that registers, and whose operation is then executed at its index before anyone
      else registers there, returns the result; registering leaves the other threads alone. */
  lemma AnswersItsSubmit(s: Service, m: ApplyMsg, lost: bool)
    requires m.CommandMsg? && m.command.Do?
    ensures var s' := Registered(s, m.index, m.command.term, m.command.id);
      && |s'.threads| == |s.threads| + 1 && s'.threads[..|s.threads|] == s.threads && s'.store == s.store
      && |OnMessage(s', m).threads| == |s'.threads|
      && OnPoll(OnMessage(s', m), |s.threads|, lost).threads[|s.threads|].outcome == Ok(Execute(s.store, m.command.request).1)
  {
    hide Execute, OnMessage;
    var s' := Registered(s, m.index, m.command.term, m.command.id);
    WokenByOwn(s', m, |s.threads|, lost);
  }

  /** A thread returns OK exactly on a notification of its own operation in its own term; it goes
      on waiting exactly while its channel is empty and its server leads in that term; whenever
      it returns, its index is free again. */
  lemma PollExactly(s: Service, j: nat, lost: bool)
    requires j < |s.threads| && s.threads[j].outcome == Waiting
    ensures var t, s' := s.threads[j], OnPoll(s, j, lost);
      && |s'.threads| == |s.threads|
      && (forall r :: s'.threads[j].outcome == Ok(r) <==> t.channel == Full(Notification(t.id, t.startTerm, r)))
      && (s'.threads[j].outcome == Waiting <==> t.channel == Empty && !lost)
      && (s'.threads[j].outcome == Waiting ==> s' == s)
      && (s'.threads[j].outcome != Waiting ==> t.index !in s'.pending)
  {
  }

  /** When the apply channel is closed, exactly the registered threads are sent away. */
  lemma CloseWakes(s: Service, j: nat, lost: bool)
    requires j < |s.threads| && s.threads[j].outcome == Waiting
    ensures CloseAll(s).pending == map[] && |CloseAll(s).threads| == |s.threads|
    ensures if j in s.pending.Values then OnPoll(CloseAll(s), j, lost).threads[j].outcome == WrongLeader
            else CloseAll(s).threads[j] == s.threads[j]
  {
  }

  // ---------------------------------------------------------------- in step with a log

  /** The reply of the operation at an index of a log, from the state before it. */
  function ReplyAt(log: seq<Entry>, index: nat): Reply
    requires 0 < index <= |log| && log[index - 1].command.Do?
  {
    Execute(Replay(map[], log[..index - 1]), log[index - 1].command.request).1
  }

  ghost predicate TrueNote(log: seq<Entry>, ok: Command -> bool, index: nat, n: Notification) {
    && 0 < index <= |log|
    && var c := log[index - 1].command;
    && c.Do? && ok(c) && c.id == n.id && c.term == n.term && n.result == ReplyAt(log, index)
  }

  ghost predicate ThreadOk(log: seq<Entry>, ok: Command -> bool, t: Thread) {
    && (t.channel.Full? ==> TrueNote(log, ok, t.index, t.channel.note))
    && (t.outcome.Ok? ==> TrueNote(log, ok, t.index, Notification(t.id, t.startTerm, t.outcome.result)))
  }

  ghost predicate TrueMsg(log: seq<Entry>, ok: Command -> bool, m: ApplyMsg) {
    match m
    case CommandMsg(index, command) => 0 < index <= |log| && log[index - 1].command == command && ok(command)
    case SnapshotMsg(index, data) => index <= |log| && data == Replay(map[], log[..index])
  }

  /** `log` is what Raft has handed over: the store is the replay of its part up to the
      position, and messages, notifications and results are true of it. */
  ghost predicate InStep(s: Service, log: seq<Entry>, ok: Command -> bool) {
    && s.position <= |log| && s.store == Replay(map[], log[..s.position])
    && (forall k | 0 <= k < |s.queue| :: TrueMsg(log, ok, s.queue[k]))
    && (forall k | k in s.pending :: s.pending[k] < |s.threads| && s.threads[s.pending[k]].index == k)
    && (forall j | 0 <= j < |s.threads| :: ThreadOk(log, ok, s.threads[j]))
  }

  lemma NoteKeeps(log: seq<Entry>, more: seq<Entry>, ok: Command -> bool, index: nat, n: Notification)
    requires log <= more && TrueNote(log, ok, index, n)
    ensures TrueNote(more, ok, index, n)
  {
    assert more[..index - 1] == log[..index - 1];
  }

  /** A longer log changes nothing for what was handed over before. */
  lemma InStepGrows(s: Service, log: seq<Entry>, more: seq<Entry>, ok: Command -> bool)
    requires InStep(s, log, ok) && log <= more
    ensures InStep(s, more, ok)
  {
    hide Replay, ReplyAt;
    assert more[..s.position] == log[..s.position];
    forall k | 0 <= k < |s.queue| ensures TrueMsg(more, ok, s.queue[k]) {
      assert TrueMsg(log, ok, s.queue[k]);
      assert more[..s.queue[k].index] == log[..s.queue[k].index];
    }
    forall j | 0 <= j < |s.threads| ensures ThreadOk(more, ok, s.threads[j]) {
      var t := s.threads[j];
      assert ThreadOk(log, ok, t);
      if t.channel.Full? { NoteKeeps(log, more, ok, t.index, t.channel.note); }
      if t.outcome.Ok? { NoteKeeps(log, more, ok, t.index, Notification(t.id, t.startTerm, t.outcome.result)); }
    }
  }

  lemma ReplayNext(log: seq<Entry>, k: nat)
    requires k < |log|
    ensures Replay(map[], log[..k + 1]) == ApplyOne(Replay(map[], log[..k]), log[k].command)
  {
    assert log[..k + 1][..k] == log[..k];
  }

  /** Reading a true message keeps the service in step, provided a command is the next one. */
  lemma MessageInStep(s: Service, m: ApplyMsg, log: seq<Entry>, ok: Command -> bool)
    requires InStep(s, log, ok) && TrueMsg(log, ok, m)
    requires m.CommandMsg? ==> m.index == s.position + 1
    ensures InStep(OnMessage(s, m), log, ok)
  {
    hide Replay, Execute;
    var s' := OnMessage(s, m);
    if m.CommandMsg? {
      ReplayNext(log, s.position);
    }
    forall j | 0 <= j < |s'.threads| ensures ThreadOk(log, ok, s'.threads[j]) {
      assert ThreadOk(log, ok, s.threads[j]);
    }
  }

  /** A command read out of order does no harm exactly when it has the effect here that it has
      in its own place. */
  predicate Harmless(s: Service, m: ApplyMsg, log: seq<Entry>)
    requires s.position <= |log| && (m.CommandMsg? ==> 0 < m.index <= |log|)
  {
    m.CommandMsg? && m.index != s.position + 1 ==>
      ApplyOne(Replay(map[], log[..s.position]), m.command) == ApplyOne(Replay(map[], log[..m.index - 1]), m.command)
  }

  lemma ReadExactly(s: Service, k: nat, log: seq<Entry>, ok: Command -> bool)
    requires InStep(s, log, ok) && k < |s.queue|
    ensures var m, s' := s.queue[k], ReadAt(s, k);
      && s'.position == m.index <= |log| && (m.CommandMsg? ==> 0 < m.index)
      && (s'.store == Replay(map[], log[..m.index]) <==> Harmless(s, m, log))
  {
    hide Replay, Execute, ReplyAt;
    var m := s.queue[k];
    assert TrueMsg(log, ok, m);
    if m.CommandMsg? {
      ReplayNext(log, m.index - 1);
    }
  }

  lemma ReadInStep(s: Service, k: nat, log: seq<Entry>, ok: Command -> bool)
    requires InStep(s, log, ok) && k < |s.queue|
    requires s.queue[k].CommandMsg? ==> s.queue[k].index == s.position + 1
    ensures InStep(ReadAt(s, k), log, ok)
  {
    hide Replay, OnMessage, ReplyAt;
    MessageInStep(s.(queue := s.queue[..k] + s.queue[k + 1..]), s.queue[k], log, ok);
  }

  lemma SentInStep(s: Service, sent: seq<ApplyMsg>, log: seq<Entry>, ok: Command -> bool)
    requires InStep(s, log, ok) && forall k | 0 <= k < |sent| :: TrueMsg(log, ok, sent[k])
    ensures InStep(s.(queue := s.queue + sent), log, ok)
  {
    hide Replay, ReplyAt;
  }

  lemma SubmitInStep(s: Service, log: seq<Entry>, ok: Command -> bool, index: nat, startTerm: nat, id: int)
    requires InStep(s, log, ok)
    ensures InStep(Registered(s, index, startTerm, id), log, ok) && InStep(CloseAll(s), log, ok)
  {
    hide Replay, ReplyAt;
    forall j | 0 <= j < |s.threads| ensures ThreadOk(log, ok, CloseAll(s).threads[j]) {
      assert ThreadOk(log, ok, s.threads[j]);
    }
  }

  lemma PollInStep(s: Service, log: seq<Entry>, ok: Command -> bool, j: nat, lost: bool)
    requires InStep(s, log, ok) && j < |s.threads|
    ensures InStep(OnPoll(s, j, lost), log, ok)
  {
    hide Replay, ReplyAt;
    assert ThreadOk(log, ok, s.threads[j]);
  }
}
